/** The later converter revision (convert-to-w3c.py): as the earlier one, plus
    parameters that absorb the description they reference, one synthesised
    `used` link per parameter numbered by a run-wide counter, and a
    description class that is never emitted. */
module ToW3c {
  import opened Prov
  import opened Mapping
  import Decimal

  /** Per destination class, the renaming of VO attribute names to W3C names. */
  const AttributeMapping: map<string, map<string, string>> := map[
    "activity" := map["voprov:id" := "prov:id", "voprov:name" := "prov:label", "voprov:type" := "prov:type",
                      "voprov:annotation" := "prov:description", "voprov:startTime" := "prov:startTime",
                      "voprov:endTime" := "prov:endTime"],
    "entity" := map["voprov:id" := "prov:id", "voprov:name" := "prov:label", "voprov:type" := "prov:type",
                    "voprov:annotation" := "prov:description", "voprov:value" := "prov:value"],
    "agent" := map["voprov:id" := "prov:id", "voprov:name" := "prov:label", "voprov:type" := "prov:type",
                   "voprov:annotation" := "prov:description"],
    "used" := map["voprov:activity" := "prov:activity", "voprov:entity" := "prov:entity", "voprov:role" := "prov:role"],
    "wasGeneratedBy" := map["voprov:entity" := "prov:entity", "voprov:activity" := "prov:activity",
                            "voprov:role" := "prov:role"],
    "wasAssociatedWith" := map["voprov:activity" := "prov:activity", "voprov:agent" := "prov:agent",
                               "voprov:role" := "prov:role"],
    "wasAttributedTo" := map["voprov:entity" := "prov:entity", "voprov:agent" := "prov:agent"],
    "hadMember" := map["voprov:collection" := "prov:collection", "voprov:entity" := "prov:entity"],
    "wasInfluencedBy" := map["voprov:activityFlow" := "prov:influencee", "voprov:activity" := "prov:influencer"],
    "wasDerivedFrom" := map["voprov:generatedEntity" := "prov:generatedEntity", "voprov:usedEntity" := "prov:usedEntity"],
    "wasInformedBy" := map["voprov:informed" := "prov:informed", "voprov:informant" := "prov:informant"]
  ]

  /** The source classes that change name, with the annotations they inject. */
  const ClassMapping: map<string, ClassRule> := map[
    "activityFlow" := ClassRule("activity", Some("voprov:activityFlow"), None),
    "hadStep" := ClassRule("wasInfluencedBy", Some("voprov:hadStep"), None),
    "collection" := ClassRule("entity", None, Some("prov:collection")),
    "parameter" := ClassRule("entity", Some("voprov:parameter"), None)
  ]

  /** Annotation keys of this revision, namespace-prefixed. */
  const VotypeKey := "voprov:votype"
  const TypeKey := "prov:type"

  const ParameterClass := "parameter"
  const DescriptionClass := "parameterDescription"
  const UsedClass := "used"
  const DescriptionKey := "voprov:description"
  const ActivityKey := "voprov:activity"
  const IdKey := "voprov:id"

  /** The two tables the class loop consults. */
  datatype Tables = Tables(attributes: map<string, map<string, string>>, classes: map<string, ClassRule>)

  const Mappings := Tables(AttributeMapping, ClassMapping)

  /** A class's rule: its table entry, or its own name with no annotations. */
  function RuleFor(tb: Tables, classname: string): ClassRule {
    if classname in tb.classes then tb.classes[classname] else ClassRule(classname, None, None)
  }

  function DestClass(tb: Tables, classname: string): string {
    RuleFor(tb, classname).w3cClass
  }

  /** What the properties below need of the tables: every renamed class lands
      in a class with an attribute table, `used` has a table, the description
      class has none and is not renamed, and parameters land in a class with
      a table other than `used`. */
  predicate Coherent(tb: Tables) {
    && (forall c | c in tb.classes :: tb.classes[c].w3cClass in tb.attributes)
    && UsedClass in tb.attributes
    && DescriptionClass !in tb.attributes && DescriptionClass !in tb.classes
    && DestClass(tb, ParameterClass) in tb.attributes && DestClass(tb, ParameterClass) != UsedClass
  }

  /** The converter's own tables have these properties. */
  lemma MappingsCoherent()
    ensures Coherent(Mappings)
    ensures DestClass(Mappings, ParameterClass) == "entity"
  {
  }

  /** A class without an attribute table kept its name; only the description
      class lands in the description class. */
  lemma CoherentFacts(tb: Tables, classname: string)
    requires Coherent(tb)
    ensures DestClass(tb, classname) !in tb.attributes ==> classname !in tb.classes && DestClass(tb, classname) == classname
    ensures DestClass(tb, classname) == DescriptionClass <==> classname == DescriptionClass
  {
  }

  // ---------------------------------------------------------------------------
  // Identifiers and links synthesised for parameters

  /** The id of the `n`-th synthesised `used` link, as `'_:p%s' % n` renders it. */
  function SynthId(n: nat): string {
    "_:p" + Decimal.NatToDecimal(n)
  }

  /** Ids with the blank-node prefix of synthesised links. */
  predicate IsSynthId(s: string) {
    |s| >= 3 && s[..3] == "_:p"
  }

  /** Every synthesised id carries the prefix, and no two counter values share an id. */
  lemma SynthIdsDistinct(m: nat, n: nat)
    ensures IsSynthId(SynthId(m))
    ensures SynthId(m) == SynthId(n) ==> m == n
  {
    assert SynthId(m)[..3] == "_:p";
    if SynthId(m) == SynthId(n) {
      assert Decimal.NatToDecimal(m) == SynthId(m)[3..] == SynthId(n)[3..] == Decimal.NatToDecimal(n);
      Decimal.NatToDecimalInjective(m, n);
    }
  }

  /** The three attributes of the usage link from a parameter entity to its activity. */
  function UsedLink(activity: Value, entity: string): Instance {
    map["prov:activity" := activity, "prov:entity" := Text(entity), "prov:role" := Text("voprov:parameter")]
  }

  // ---------------------------------------------------------------------------
  // One instance

  /** The lookups a parameter instance needs all succeed: its description
      reference is a string naming an instance of the description class, and
      it names an activity. */
  predicate Resolvable(src: Source, attrs: Dict<Value>) {
    && DescriptionKey in attrs.items
    && DescriptionClass in src.items
    && attrs.items[DescriptionKey].Text?
    && attrs.items[DescriptionKey].s in src.items[DescriptionClass].items
    && ActivityKey in attrs.items
  }

  /** Why a parameter instance cannot be converted: the first lookup that raises. */
  datatype Failure =
    | MissingDescriptionRef(instance: string)   // the parameter has no 'voprov:description'
    | MissingDescriptionClass                   // the document has no description class
    | UnresolvedDescription(instance: string)   // the reference is not the id of a description
    | MissingActivity(instance: string)         // the parameter has no 'voprov:activity'

  function ParameterFailure(src: Source, x: string, attrs: Dict<Value>): Failure {
    if DescriptionKey !in attrs.items then MissingDescriptionRef(x)
    else if DescriptionClass !in src.items then MissingDescriptionClass
    else if !(attrs.items[DescriptionKey].Text? && attrs.items[DescriptionKey].s in src.items[DescriptionClass].items) then
      UnresolvedDescription(x)
    else MissingActivity(x)
  }

  /** What the top of the class loop computes for a class with an attribute
      table: its rule (destination class and annotations) and that table. */
  datatype Target = Target(rule: ClassRule, table: map<string, string>)

  function TargetOf(tb: Tables, classname: string): Target
    requires DestClass(tb, classname) in tb.attributes
  {
    Target(RuleFor(tb, classname), tb.attributes[DestClass(tb, classname)])
  }

  /** An instance renamed through the target's table, then annotated. */
  function Annotated(t: Target, attrs: Dict<Value>): Instance
    requires ValidDict(attrs)
  {
    Annotate(Renamed(t.table, attrs), t.rule, VotypeKey, TypeKey)
  }

  function DescriptionOf(src: Source, attrs: Dict<Value>): Dict<Value>
    requires Resolvable(src, attrs)
  {
    src.items[DescriptionClass].items[attrs.items[DescriptionKey].s]
  }

  /** A parameter entity: annotated, then every attribute of its description
      but the description's own id, renamed through the same table. */
  function MergedParameter(src: Source, t: Target, attrs: Dict<Value>): Instance
    requires WellFormed(src) && ValidDict(attrs) && Resolvable(src, attrs)
  {
    var desc := DescriptionOf(src, attrs);
    RenameInto(Annotated(t, attrs), t.table, Except(desc.keys, IdKey), desc.items)
  }

  /** What an instance of a class converted towards `t` becomes. */
  function Converted(src: Source, classname: string, t: Target, attrs: Dict<Value>): Instance
    requires WellFormed(src) && ValidDict(attrs)
    requires classname == ParameterClass ==> Resolvable(src, attrs)
  {
    if classname == ParameterClass then MergedParameter(src, t, attrs) else Annotated(t, attrs)
  }

  // ---------------------------------------------------------------------------
  // The conversion pass

  /** The state of the conversion loop: the document built so far, the
      run-wide parameter counter and the diagnostics printed so far. */
  datatype State = State(graph: Graph, numParam: nat, diags: seq<Diagnostic>)

  /** One pass of the instance loop for instance `x` of `classname`, converted towards `t`. */
  function InstanceStep(src: Source, classname: string, t: Target, st: State, x: string): Result<State, Failure>
    requires WellFormed(src) && classname in src.items && x in src.items[classname].items
  {
    var dest := t.rule.w3cClass;
    var attrs := src.items[classname].items[x];
    if classname != ParameterClass then Ok(st.(graph := Put(st.graph, dest, x, Annotated(t, attrs))))
    else ParameterStep(src, t, st, x)
  }

  /** The instance loop's pass for parameter `x`: the merged entity and its
      `used` link, numbered by the counter, or the lookup that fails. */
  function ParameterStep(src: Source, t: Target, st: State, x: string): Result<State, Failure>
    requires WellFormed(src) && ParameterClass in src.items && x in src.items[ParameterClass].items
  {
    var attrs := src.items[ParameterClass].items[x];
    if !Resolvable(src, attrs) then Err(ParameterFailure(src, x, attrs))
    else
      var g := Put(st.graph, t.rule.w3cClass, x, MergedParameter(src, t, attrs));
      Ok(State(Put(g, UsedClass, SynthId(st.numParam), UsedLink(attrs.items[ActivityKey], x)), st.numParam + 1, st.diags))
  }

  /** The instance loop of one class with an attribute table, over the ids still to do. */
  function RunInstances(src: Source, classname: string, t: Target, st: State, ids: seq<string>): Result<State, Failure>
    requires WellFormed(src) && classname in src.items
    requires forall x | x in ids :: x in src.items[classname].items
    decreases |ids|
  {
    if ids == [] then Ok(st)
    else match InstanceStep(src, classname, t, st, ids[0])
      case Err(e) => Err(e)
      case Ok(st') => RunInstances(src, classname, t, st', ids[1..])
  }

  /** One pass of the class loop: create or reuse the destination bucket
      (never one for the description class), then convert the instances, skip
      the description class, or copy the class through with a warning. */
  function ClassStep(src: Source, tb: Tables, st: State, classname: string): Result<State, Failure>
    requires WellFormed(src) && classname in src.items
  {
    var dest := DestClass(tb, classname);
    var g := if dest in st.graph || classname == DescriptionClass then st.graph else st.graph[dest := map[]];
    if dest in tb.attributes then RunInstances(src, classname, TargetOf(tb, classname), st.(graph := g), src.items[classname].keys)
    else if classname == DescriptionClass then Ok(st.(diags := st.diags + [SkippedDescription]))
    else Ok(st.(graph := g[classname := Verbatim(src.items[classname])], diags := st.diags + [NoMapping(classname)]))
  }

  /** Continues with the classes still to do, unless the run already failed. */
  function Continue(src: Source, tb: Tables, r: Result<State, Failure>, classes: seq<string>): Result<State, Failure>
    requires WellFormed(src) && forall c | c in classes :: c in src.items
    decreases |classes|, 1
  {
    match r
    case Err(e) => Err(e)
    case Ok(st) => RunClasses(src, tb, st, classes)
  }

  /** The class loop from state `st` over the classes still to do. */
  function RunClasses(src: Source, tb: Tables, st: State, classes: seq<string>): Result<State, Failure>
    requires WellFormed(src) && forall c | c in classes :: c in src.items
    decreases |classes|, 0
  {
    if classes == [] then Ok(st) else Continue(src, tb, ClassStep(src, tb, st, classes[0]), classes[1..])
  }

  /** The whole conversion of a source document with the converter's tables;
      an error aborts the run. */
  function Conversion(src: Source): Result<State, Failure>
    requires WellFormed(src)
  {
    Run(src, Mappings)
  }

  /** The class loop over a whole document, from the empty state, with tables `tb`. */
  function Run(src: Source, tb: Tables): Result<State, Failure>
    requires WellFormed(src)
  {
    RunClasses(src, tb, State(map[], 0, []), src.keys)
  }

  /** The conversion loop of `main()`, building the destination document in
      place; the state holds `w3c_data`, `num_param` and the printed lines. */
  method Convert(src: Source) returns (res: Result<State, Failure>)
    requires WellFormed(src)
    ensures res == Conversion(src)
  {
    var st := State(map[], 0, []);
    for i := 0 to |src.keys|
      invariant RunClasses(src, Mappings, st, src.keys[i..]) == Conversion(src)
    {
      assert src.keys[i..][1..] == src.keys[i + 1..];
      var r := ConvertClass(src, st, src.keys[i]);
      if r.Err? {
        return Err(r.error);
      }
      st := r.value;
    }
    res := Ok(st);
  }

  /** The body of the class loop for one source class. */
  method ConvertClass(src: Source, st: State, classname: string) returns (res: Result<State, Failure>)
    requires WellFormed(src) && classname in src.items
    ensures res == ClassStep(src, Mappings, st, classname)
  {
    var w3c, numParam, diags := st.graph, st.numParam, st.diags;
    var classVotype: Option<string> := None;
    var classType: Option<string> := None;
    var w3cClassname: string;
    if classname in ClassMapping {
      w3cClassname := ClassMapping[classname].w3cClass;
      classVotype := ClassMapping[classname].votype;
      classType := ClassMapping[classname].typ;
    } else {
      w3cClassname := classname;
    }
    assert ClassRule(w3cClassname, classVotype, classType) == RuleFor(Mappings, classname);
    if w3cClassname !in w3c && classname != DescriptionClass {
      w3c := w3c[w3cClassname := map[]];
    }
    if w3cClassname in AttributeMapping {
      var target := Target(ClassRule(w3cClassname, classVotype, classType), AttributeMapping[w3cClassname]);
      assert target == TargetOf(Mappings, classname);
      res := ConvertInstances(src, classname, target, State(w3c, numParam, diags));
      return;
    } else if classname == DescriptionClass {
      diags := diags + [SkippedDescription];
    } else {
      diags := diags + [NoMapping(classname)];
      w3c := w3c[classname := Verbatim(src.items[classname])];
    }
    res := Ok(State(w3c, numParam, diags));
  }

  /** The instance loop of one class with an attribute table. */
  method ConvertInstances(src: Source, classname: string, t: Target, st: State) returns (res: Result<State, Failure>)
    requires WellFormed(src) && classname in src.items && t.rule.w3cClass in st.graph
    ensures res == RunInstances(src, classname, t, st, src.items[classname].keys)
  {
    var w3c, numParam := st.graph, st.numParam;
    var bucket := src.items[classname];
    for k := 0 to |bucket.keys|
      invariant t.rule.w3cClass in w3c
      invariant RunInstances(src, classname, t, State(w3c, numParam, st.diags), bucket.keys[k..])
             == RunInstances(src, classname, t, st, bucket.keys)
    {
      var instance := bucket.keys[k];
      assert bucket.keys[k..][1..] == bucket.keys[k + 1..];
      var r := ConvertInstance(src, classname, t, State(w3c, numParam, st.diags), instance);
      if r.Err? {
        return Err(r.error);
      }
      w3c, numParam := r.value.graph, r.value.numParam;
    }
    res := Ok(State(w3c, numParam, st.diags));
  }

  /** The body of the instance loop: one instance converted into the bucket of
      `w3cClassname`, and for a parameter its description merged in and its
      `used` link added. */
  method ConvertInstance(src: Source, classname: string, t: Target, st: State, instance: string)
    returns (res: Result<State, Failure>)
    requires WellFormed(src) && classname in src.items && instance in src.items[classname].items
    requires t.rule.w3cClass in st.graph
    ensures res == InstanceStep(src, classname, t, st, instance)
    ensures res.Ok? ==> t.rule.w3cClass in res.value.graph && res.value.diags == st.diags
  {
    var w3cClassname := t.rule.w3cClass;
    var attrs := src.items[classname].items[instance];
    var converted := ConvertAttributes(t.table, attrs, t.rule, VotypeKey, TypeKey);
    var w3c := st.graph[w3cClassname := st.graph[w3cClassname][instance := converted]];
    if classname != ParameterClass {
      assert w3c == Put(st.graph, w3cClassname, instance, converted);
      return Ok(st.(graph := w3c));
    }
    res := ConvertParameter(src, t, st, w3c, instance, converted);
  }

  /** A parameter whose lookups do not all succeed aborts the run with the first that fails. */
  lemma ParameterStepFails(src: Source, t: Target, st: State, x: string)
    requires WellFormed(src) && ParameterClass in src.items && x in src.items[ParameterClass].items
    requires !Resolvable(src, src.items[ParameterClass].items[x])
    ensures ParameterStep(src, t, st, x) == Err(ParameterFailure(src, x, src.items[ParameterClass].items[x]))
  {
  }

  /** Which lookup a failing parameter reports: the description reference
      when it is missing, else the description class when the document has
      none, else the description when the reference does not name one, else
      the activity. */
  lemma ParameterFailureKinds(src: Source, x: string, attrs: Dict<Value>)
    requires !Resolvable(src, attrs)
    ensures ParameterFailure(src, x, attrs) == MissingDescriptionRef(x) <==> DescriptionKey !in attrs.items
    ensures ParameterFailure(src, x, attrs) == MissingDescriptionClass
        <==> DescriptionKey in attrs.items && DescriptionClass !in src.items
    ensures ParameterFailure(src, x, attrs) == UnresolvedDescription(x)
        <==> && DescriptionKey in attrs.items && DescriptionClass in src.items
             && !(attrs.items[DescriptionKey].Text? && attrs.items[DescriptionKey].s in src.items[DescriptionClass].items)
    ensures ParameterFailure(src, x, attrs) == MissingActivity(x)
        <==> && DescriptionKey in attrs.items && DescriptionClass in src.items
             && attrs.items[DescriptionKey].Text? && attrs.items[DescriptionKey].s in src.items[DescriptionClass].items
             && ActivityKey !in attrs.items
  {
  }

  /** The parameter part of the instance loop: look up the description, merge
      it into the entity already written, and add the `used` link. */
  method ConvertParameter(src: Source, t: Target, st: State, w3c0: Graph, instance: string, converted0: Instance)
    returns (res: Result<State, Failure>)
    requires WellFormed(src) && ParameterClass in src.items && instance in src.items[ParameterClass].items
    requires converted0 == Annotated(t, src.items[ParameterClass].items[instance])
    requires w3c0 == Put(st.graph, t.rule.w3cClass, instance, converted0)
    ensures res == ParameterStep(src, t, st, instance)
  {
    var w3cClassname := t.rule.w3cClass;
    var attrs := src.items[ParameterClass].items[instance];
    if DescriptionKey !in attrs.items {
      ParameterStepFails(src, t, st, instance);
      return Err(MissingDescriptionRef(instance));
    }
    var descriptionId := attrs.items[DescriptionKey];
    if DescriptionClass !in src.items {
      ParameterStepFails(src, t, st, instance);
      return Err(MissingDescriptionClass);
    }
    var descriptions := src.items[DescriptionClass];
    if !descriptionId.Text? || descriptionId.s !in descriptions.items {
      ParameterStepFails(src, t, st, instance);
      return Err(UnresolvedDescription(instance));
    }
    var converted := MergeAttributes(converted0, t.table, descriptions.items[descriptionId.s], IdKey);
    var w3c := w3c0[w3cClassname := w3c0[w3cClassname][instance := converted]];
    if ActivityKey !in attrs.items {
      ParameterStepFails(src, t, st, instance);
      return Err(MissingActivity(instance));
    }
    assert Resolvable(src, attrs);
    ghost var desc := DescriptionOf(src, attrs);
    assert descriptions.items[descriptionId.s] == desc;
    assert converted == MergedParameter(src, t, attrs);
    assert w3c == Put(st.graph, w3cClassname, instance, converted) by {
      PutTwice(st.graph, w3cClassname, instance, converted0, converted);
    }
    ghost var merged := Put(st.graph, w3cClassname, instance, converted);
    w3c := AddUsedLink(w3c, st.numParam, attrs.items[ActivityKey], instance);
    assert w3c == Put(merged, UsedClass, SynthId(st.numParam), UsedLink(attrs.items[ActivityKey], instance));
    res := Ok(State(w3c, st.numParam + 1, st.diags));
    ParameterStepOk(src, t, st, instance);
  }

  /** A parameter whose lookups succeed is merged and linked. */
  lemma ParameterStepOk(src: Source, t: Target, st: State, x: string)
    requires WellFormed(src) && ParameterClass in src.items && x in src.items[ParameterClass].items
    requires Resolvable(src, src.items[ParameterClass].items[x])
    ensures ParameterStep(src, t, st, x)
         == Ok(State(Put(Put(st.graph, t.rule.w3cClass, x, MergedParameter(src, t, src.items[ParameterClass].items[x])),
                         UsedClass, SynthId(st.numParam), UsedLink(src.items[ParameterClass].items[x].items[ActivityKey], x)),
                     st.numParam + 1, st.diags))
  {
  }

  /** Adds the `used` link of the `n`-th parameter, creating the `used` class when missing. */
  method AddUsedLink(w3c0: Graph, n: nat, activityId: Value, instance: string) returns (w3c: Graph)
    ensures w3c == Put(w3c0, UsedClass, SynthId(n), UsedLink(activityId, instance))
  {
    w3c := w3c0;
    if UsedClass !in w3c {
      w3c := w3c[UsedClass := map[]];
    }
    var usedId := "_:p" + Decimal.NatToDecimal(n);
    var link: Instance := map[];
    link := link["prov:activity" := activityId];
    link := link["prov:entity" := Text(instance)];
    link := link["prov:role" := Text("voprov:parameter")];
    assert link == UsedLink(activityId, instance);
    w3c := w3c[UsedClass := w3c[UsedClass][usedId := link]];
  }

  // ---------------------------------------------------------------------------
  // Reference definitions for the properties

  /** The parameter instance ids of a document, in document order. */
  function Parameters(src: Source): seq<string> {
    if ParameterClass in src.items then src.items[ParameterClass].keys else []
  }

  /** The failure of the first parameter among `ids` whose lookups do not all succeed. */
  function FirstFailure(src: Source, ids: seq<string>): Option<Failure>
    requires forall x | x in ids :: ParameterClass in src.items && x in src.items[ParameterClass].items
  {
    if ids == [] then None
    else
      var attrs := assert ids[0] in ids; src.items[ParameterClass].items[ids[0]];
      if !Resolvable(src, attrs) then Some(ParameterFailure(src, ids[0], attrs)) else FirstFailure(src, ids[1..])
  }

  /** The lines printed for one class: the description class is announced as
      skipped, a class without an attribute table is warned about. */
  function ClassDiagnostics(tb: Tables, classname: string): seq<Diagnostic> {
    if classname == DescriptionClass then [SkippedDescription]
    else if DestClass(tb, classname) !in tb.attributes then [NoMapping(classname)]
    else []
  }

  /** The lines printed so far, `acc`, followed by those for `classes`, in order. */
  function Printed(tb: Tables, acc: seq<Diagnostic>, classes: seq<string>): seq<Diagnostic>
    decreases |classes|
  {
    if classes == [] then acc else Printed(tb, acc + ClassDiagnostics(tb, classes[0]), classes[1..])
  }

  /** The destination buckets the class loop creates for `classes`. */
  function Buckets(tb: Tables, classes: seq<string>): set<string> {
    if classes == [] then {}
    else (if classes[0] == DescriptionClass then {} else {DestClass(tb, classes[0])}) + Buckets(tb, classes[1..])
  }

  /** Instance `y` of destination class `d` comes from a class in `classes` other than the description class. */
  ghost predicate Sourced(src: Source, tb: Tables, classes: seq<string>, d: string, y: string) {
    exists c | c in classes && c in src.items :: c != DescriptionClass && DestClass(tb, c) == d && y in src.items[c].items
  }

  /** The ids of the links synthesised while the counter ran from `lo` up to `hi`. */
  function SynthIds(lo: nat, hi: nat): set<string>
    decreases hi - lo
  {
    if lo >= hi then {} else {SynthId(lo)} + SynthIds(lo + 1, hi)
  }

  /** `SynthIds(lo, hi)` holds exactly the ids of the counter values from `lo` below `hi`. */
  lemma {:induction false} SynthIdsMembers(lo: nat, hi: nat, y: string)
    ensures y in SynthIds(lo, hi) <==> exists n: nat | lo <= n < hi :: y == SynthId(n)
    decreases hi - lo
  {
    if lo < hi {
      SynthIdsMembers(lo + 1, hi, y);
      if y in SynthIds(lo + 1, hi) {
        var n: nat :| lo + 1 <= n < hi && y == SynthId(n);
      }
    }
  }

  /** The counter values from `lo` to `hi` are those up to `mid` and those from it. */
  lemma {:induction false} SynthIdsSplit(lo: nat, mid: nat, hi: nat)
    requires lo <= mid <= hi
    ensures SynthIds(lo, hi) == SynthIds(lo, mid) + SynthIds(mid, hi)
    decreases mid - lo
  {
    if lo < mid {
      SynthIdsSplit(lo + 1, mid, hi);
    }
  }

  lemma {:induction false} FirstFailureSome(src: Source, ids: seq<string>)
    requires forall x | x in ids :: ParameterClass in src.items && x in src.items[ParameterClass].items
    ensures FirstFailure(src, ids).Some? <==> exists x | x in ids :: !Resolvable(src, src.items[ParameterClass].items[x])
    decreases |ids|
  {
    if ids != [] {
      assert ids[0] in ids;
      FirstFailureSome(src, ids[1..]);
      assert forall x :: x in ids <==> x == ids[0] || x in ids[1..];
    }
  }

  /** The failure reported is that of the first parameter whose lookups do not all succeed. */
  lemma {:induction false} FirstFailureAt(src: Source, ids: seq<string>) returns (k: nat)
    requires forall x | x in ids :: ParameterClass in src.items && x in src.items[ParameterClass].items
    requires FirstFailure(src, ids).Some?
    ensures k < |ids| && ids[k] in ids && !Resolvable(src, src.items[ParameterClass].items[ids[k]])
    ensures forall j | 0 <= j < k :: Resolvable(src, src.items[ParameterClass].items[ids[j]])
    ensures FirstFailure(src, ids).value == ParameterFailure(src, ids[k], src.items[ParameterClass].items[ids[k]])
    decreases |ids|
  {
    assert ids[0] in ids;
    if !Resolvable(src, src.items[ParameterClass].items[ids[0]]) {
      k := 0;
    } else {
      var k' := FirstFailureAt(src, ids[1..]);
      k := k' + 1;
      assert ids[k] == ids[1..][k'];
      forall j | 0 <= j < k ensures Resolvable(src, src.items[ParameterClass].items[ids[j]]) {
        if j > 0 {
          assert ids[j] == ids[1..][j - 1];
        }
      }
    }
  }

  /** A bucket is created exactly for the destination of each class but the description class. */
  lemma {:induction false} BucketsOf(tb: Tables, classes: seq<string>)
    ensures Buckets(tb, classes) == set c | c in classes && c != DescriptionClass :: DestClass(tb, c)
    decreases |classes|
  {
    if classes != [] {
      BucketsOf(tb, classes[1..]);
      assert forall c :: c in classes <==> c == classes[0] || c in classes[1..];
    }
  }

  /** Which lines the class loop prints, in terms of the classes it visits. */
  lemma {:induction false} PrintedLines(tb: Tables, acc: seq<Diagnostic>, classes: seq<string>, classname: string)
    ensures NoMapping(classname) in Printed(tb, acc, classes)
        <==> NoMapping(classname) in acc
             || (classname in classes && classname != DescriptionClass && DestClass(tb, classname) !in tb.attributes)
    ensures SkippedDescription in Printed(tb, acc, classes) <==> SkippedDescription in acc || DescriptionClass in classes
    ensures forall dg | dg in Printed(tb, acc, classes) && dg !in acc :: dg.NoMapping? || dg.SkippedDescription?
    decreases |classes|
  {
    if classes != [] {
      PrintedLines(tb, acc + ClassDiagnostics(tb, classes[0]), classes[1..], classname);
      assert forall c :: c in classes <==> c == classes[0] || c in classes[1..];
    }
  }

  // ---------------------------------------------------------------------------
  // The instance loop

  /** The instance loop fails exactly on the first parameter that cannot be
      resolved, with the failure of that parameter's first missing lookup. */
  lemma {:induction false} RunInstancesOutcome(src: Source, classname: string, t: Target, st: State, ids: seq<string>)
    requires WellFormed(src) && classname in src.items
    requires forall x | x in ids :: x in src.items[classname].items
    ensures classname != ParameterClass ==> RunInstances(src, classname, t, st, ids).Ok?
    ensures classname == ParameterClass ==>
              && (RunInstances(src, classname, t, st, ids).Err? <==> FirstFailure(src, ids).Some?)
              && (RunInstances(src, classname, t, st, ids).Err? ==>
                    RunInstances(src, classname, t, st, ids).error == FirstFailure(src, ids).value)
    decreases |ids|
  {
    if ids != [] {
      var step := InstanceStep(src, classname, t, st, ids[0]);
      if step.Ok? {
        assert RunInstances(src, classname, t, st, ids) == RunInstances(src, classname, t, step.value, ids[1..]);
        RunInstancesOutcome(src, classname, t, step.value, ids[1..]);
      }
    }
  }

  /** What one successful pass of the instance loop adds to the document: the
      instance itself and, for a parameter, the link under the counter. */
  lemma InstanceStepSourced(src: Source, classname: string, t: Target, st: State, x: string, d: string, y: string)
    requires WellFormed(src) && classname in src.items && x in src.items[classname].items
    requires InstanceStep(src, classname, t, st, x).Ok?
    requires Has(InstanceStep(src, classname, t, st, x).value.graph, d, y)
    ensures || Has(st.graph, d, y)
            || (d == t.rule.w3cClass && y == x)
            || (classname == ParameterClass && d == UsedClass && y == SynthId(st.numParam))
  {
    var attrs := src.items[classname].items[x];
    if classname == ParameterClass {
      var g := Put(st.graph, t.rule.w3cClass, x, MergedParameter(src, t, attrs));
      PutFacts(st.graph, t.rule.w3cClass, x, MergedParameter(src, t, attrs));
      PutFacts(g, UsedClass, SynthId(st.numParam), UsedLink(attrs.items[ActivityKey], x));
    } else {
      PutFacts(st.graph, t.rule.w3cClass, x, Annotated(t, attrs));
    }
  }

  /** What one successful pass of the instance loop changes in the state. */
  lemma InstanceStepShape(src: Source, classname: string, t: Target, st: State, x: string)
    requires WellFormed(src) && classname in src.items && x in src.items[classname].items
    requires InstanceStep(src, classname, t, st, x).Ok?
    ensures InstanceStep(src, classname, t, st, x).value.graph.Keys
         == st.graph.Keys + {t.rule.w3cClass} + (if classname == ParameterClass then {UsedClass} else {})
    ensures InstanceStep(src, classname, t, st, x).value.numParam == st.numParam + (if classname == ParameterClass then 1 else 0)
    ensures InstanceStep(src, classname, t, st, x).value.diags == st.diags
  {
    var attrs := src.items[classname].items[x];
    if classname == ParameterClass {
      var g := Put(st.graph, t.rule.w3cClass, x, MergedParameter(src, t, attrs));
      PutFacts(st.graph, t.rule.w3cClass, x, MergedParameter(src, t, attrs));
      PutFacts(g, UsedClass, SynthId(st.numParam), UsedLink(attrs.items[ActivityKey], x));
    } else {
      PutFacts(st.graph, t.rule.w3cClass, x, Annotated(t, attrs));
    }
  }

  /** A successful instance loop adds the destination bucket, and for
      parameters the `used` bucket. */
  lemma {:induction false} RunInstancesKeys(src: Source, classname: string, t: Target, st: State, ids: seq<string>, e: string)
    requires WellFormed(src) && classname in src.items
    requires forall x | x in ids :: x in src.items[classname].items
    requires RunInstances(src, classname, t, st, ids).Ok?
    ensures e in RunInstances(src, classname, t, st, ids).value.graph
        <==> e in st.graph || (ids != [] && e == t.rule.w3cClass) || (classname == ParameterClass && ids != [] && e == UsedClass)
    decreases |ids|
  {
    if ids != [] {
      var st' := InstanceStep(src, classname, t, st, ids[0]).value;
      assert RunInstances(src, classname, t, st, ids) == RunInstances(src, classname, t, st', ids[1..]);
      InstanceStepShape(src, classname, t, st, ids[0]);
      assert e in st'.graph <==> e in st.graph || e == t.rule.w3cClass || (classname == ParameterClass && e == UsedClass);
      RunInstancesKeys(src, classname, t, st', ids[1..], e);
    }
  }

  /** A successful instance loop advances the counter once per parameter and prints nothing. */
  lemma {:induction false} RunInstancesCounter(src: Source, classname: string, t: Target, st: State, ids: seq<string>)
    requires WellFormed(src) && classname in src.items
    requires forall x | x in ids :: x in src.items[classname].items
    requires RunInstances(src, classname, t, st, ids).Ok?
    ensures RunInstances(src, classname, t, st, ids).value.numParam
         == st.numParam + (if classname == ParameterClass then |ids| else 0)
    ensures RunInstances(src, classname, t, st, ids).value.diags == st.diags
    decreases |ids|
  {
    if ids != [] {
      var st' := InstanceStep(src, classname, t, st, ids[0]).value;
      assert RunInstances(src, classname, t, st, ids) == RunInstances(src, classname, t, st', ids[1..]);
      InstanceStepShape(src, classname, t, st, ids[0]);
      RunInstancesCounter(src, classname, t, st', ids[1..]);
    }
  }

  /** An entry is kept by the instance loop unless the loop writes the same
      id into its class, or the same synthesised id into `used`. */
  lemma {:induction false} RunInstancesKeepsEntry(src: Source, classname: string, t: Target, st: State, ids: seq<string>,
                                                  d: string, y: string)
    requires WellFormed(src) && classname in src.items
    requires forall x | x in ids :: x in src.items[classname].items
    requires RunInstances(src, classname, t, st, ids).Ok?
    requires Has(st.graph, d, y)
    requires d == t.rule.w3cClass ==> y !in ids
    requires classname == ParameterClass && d == UsedClass ==> forall n: nat | n >= st.numParam :: y != SynthId(n)
    ensures Has(RunInstances(src, classname, t, st, ids).value.graph, d, y)
    ensures RunInstances(src, classname, t, st, ids).value.graph[d][y] == st.graph[d][y]
    decreases |ids|
  {
    if ids != [] {
      var x := ids[0];
      var attrs := src.items[classname].items[x];
      var st' := InstanceStep(src, classname, t, st, x).value;
      assert RunInstances(src, classname, t, st, ids) == RunInstances(src, classname, t, st', ids[1..]);
      if classname == ParameterClass {
        var g := Put(st.graph, t.rule.w3cClass, x, MergedParameter(src, t, attrs));
        PutFacts(st.graph, t.rule.w3cClass, x, MergedParameter(src, t, attrs));
        PutFacts(g, UsedClass, SynthId(st.numParam), UsedLink(attrs.items[ActivityKey], x));
      } else {
        PutFacts(st.graph, t.rule.w3cClass, x, Annotated(t, attrs));
      }
      RunInstancesKeepsEntry(src, classname, t, st', ids[1..], d, y);
    }
  }

  /** Each instance of the loop ends up converted in the destination bucket. */
  lemma {:induction false} RunInstancesSets(src: Source, classname: string, t: Target, st: State, ids: seq<string>, x: string)
    requires WellFormed(src) && classname in src.items
    requires forall y | y in ids :: y in src.items[classname].items
    requires RunInstances(src, classname, t, st, ids).Ok?
    requires Distinct(ids) && x in ids
    requires classname == ParameterClass ==> t.rule.w3cClass != UsedClass
    ensures classname == ParameterClass ==> Resolvable(src, src.items[classname].items[x])
    ensures Has(RunInstances(src, classname, t, st, ids).value.graph, t.rule.w3cClass, x)
    ensures RunInstances(src, classname, t, st, ids).value.graph[t.rule.w3cClass][x]
         == Converted(src, classname, t, src.items[classname].items[x])
    decreases |ids|
  {
    var y := ids[0];
    var attrs := src.items[classname].items[y];
    var st' := InstanceStep(src, classname, t, st, y).value;
    assert RunInstances(src, classname, t, st, ids) == RunInstances(src, classname, t, st', ids[1..]);
    if y == x {
      assert x !in ids[1..];
      if classname == ParameterClass {
        var g := Put(st.graph, t.rule.w3cClass, x, MergedParameter(src, t, attrs));
        PutFacts(st.graph, t.rule.w3cClass, x, MergedParameter(src, t, attrs));
        PutFacts(g, UsedClass, SynthId(st.numParam), UsedLink(attrs.items[ActivityKey], x));
      } else {
        PutFacts(st.graph, t.rule.w3cClass, x, Annotated(t, attrs));
      }
      RunInstancesKeepsEntry(src, classname, t, st', ids[1..], t.rule.w3cClass, x);
    } else {
      RunInstancesSets(src, classname, t, st', ids[1..], x);
    }
  }

  // ---------------------------------------------------------------------------
  // The class loop

  lemma DistinctTail(s: seq<string>)
    requires Distinct(s) && s != []
    ensures Distinct(s[1..]) && s[0] !in s[1..]
  {
    forall i, j | 0 <= i < j < |s[1..]| ensures s[1..][i] != s[1..][j] {
      assert s[1..][i] == s[i + 1] && s[1..][j] == s[j + 1];
    }
  }

  lemma {:induction false} RunClassesAppend(src: Source, tb: Tables, st: State, a: seq<string>, b: seq<string>)
    requires WellFormed(src)
    requires forall c | c in a :: c in src.items
    requires forall c | c in b :: c in src.items
    ensures RunClasses(src, tb, st, a + b) == Continue(src, tb, RunClasses(src, tb, st, a), b)
    decreases |a|
  {
    if a == [] {
      assert a + b == b;
    } else {
      assert (a + b)[0] == a[0];
      assert (a + b)[1..] == a[1..] + b;
      var r := ClassStep(src, tb, st, a[0]);
      if r.Ok? {
        RunClassesAppend(src, tb, r.value, a[1..], b);
      }
    }
  }

  /** In a successful run, the states right before and right after class `src.keys[i]`. */
  lemma SplitAt(src: Source, tb: Tables, i: nat) returns (before: State, after: State)
    requires WellFormed(src) && i < |src.keys| && Run(src, tb).Ok?
    ensures RunClasses(src, tb, State(map[], 0, []), src.keys[..i]) == Ok(before)
    ensures ClassStep(src, tb, before, src.keys[i]) == Ok(after)
    ensures RunClasses(src, tb, after, src.keys[i + 1..]) == Run(src, tb)
  {
    var init := State(map[], 0, []);
    assert src.keys == src.keys[..i] + src.keys[i..];
    RunClassesAppend(src, tb, init, src.keys[..i], src.keys[i..]);
    var r := RunClasses(src, tb, init, src.keys[..i]);
    assert Run(src, tb) == Continue(src, tb, r, src.keys[i..]);
    before := r.value;
    assert Run(src, tb) == RunClasses(src, tb, before, src.keys[i..]);
    assert src.keys[i..][0] == src.keys[i] && src.keys[i..][1..] == src.keys[i + 1..];
    var r' := ClassStep(src, tb, before, src.keys[i]);
    assert Run(src, tb) == Continue(src, tb, r', src.keys[i + 1..]);
    after := r'.value;
  }

  /** The pass over a class with an attribute table is the instance loop over
      its ids, from the state with the destination bucket created. */
  lemma MappedPass(src: Source, tb: Tables, st: State, classname: string) returns (st0: State)
    requires WellFormed(src) && classname in src.items && DestClass(tb, classname) in tb.attributes
    ensures st0.numParam == st.numParam && st0.diags == st.diags
    ensures st0.graph == if DestClass(tb, classname) in st.graph || classname == DescriptionClass then st.graph
                         else st.graph[DestClass(tb, classname) := map[]]
    ensures TargetOf(tb, classname).rule.w3cClass == DestClass(tb, classname)
    ensures forall x | x in src.items[classname].keys :: x in src.items[classname].items
    ensures ClassStep(src, tb, st, classname) == RunInstances(src, classname, TargetOf(tb, classname), st0, src.items[classname].keys)
  {
    var dest := DestClass(tb, classname);
    st0 := st.(graph := if dest in st.graph || classname == DescriptionClass then st.graph else st.graph[dest := map[]]);
  }

  /** Only the parameter class can fail, and it fails as its instance loop does. */
  lemma ClassStepOutcome(src: Source, tb: Tables, st: State, classname: string)
    requires WellFormed(src) && Coherent(tb) && classname in src.items
    ensures ClassStep(src, tb, st, classname).Err? <==> classname == ParameterClass && FirstFailure(src, Parameters(src)).Some?
    ensures ClassStep(src, tb, st, classname).Err? ==> ClassStep(src, tb, st, classname).error == FirstFailure(src, Parameters(src)).value
  {
    var dest := DestClass(tb, classname);
    var g := if dest in st.graph || classname == DescriptionClass then st.graph else st.graph[dest := map[]];
    CoherentFacts(tb, classname);
    if dest in tb.attributes {
      RunInstancesOutcome(src, classname, TargetOf(tb, classname), st.(graph := g), src.items[classname].keys);
    }
  }

  /** A successful class pass adds the destination bucket, except for the
      description class, and for a non-empty parameter class the `used` bucket. */
  lemma ClassStepKeys(src: Source, tb: Tables, st: State, classname: string, e: string)
    requires WellFormed(src) && Coherent(tb) && classname in src.items && ClassStep(src, tb, st, classname).Ok?
    ensures e in ClassStep(src, tb, st, classname).value.graph
        <==> e in st.graph || (classname != DescriptionClass && e == DestClass(tb, classname))
             || (classname == ParameterClass && Parameters(src) != [] && e == UsedClass)
  {
    var dest := DestClass(tb, classname);
    var g := if dest in st.graph || classname == DescriptionClass then st.graph else st.graph[dest := map[]];
    CoherentFacts(tb, classname);
    if dest in tb.attributes {
      RunInstancesKeys(src, classname, TargetOf(tb, classname), st.(graph := g), src.items[classname].keys, e);
    }
  }

  /** A successful class pass advances the counter by the parameter count for
      the parameter class only, and prints that class's lines. */
  lemma ClassStepCounter(src: Source, tb: Tables, st: State, classname: string)
    requires WellFormed(src) && Coherent(tb) && classname in src.items && ClassStep(src, tb, st, classname).Ok?
    ensures ClassStep(src, tb, st, classname).value.numParam
         == st.numParam + (if classname == ParameterClass then |Parameters(src)| else 0)
    ensures ClassStep(src, tb, st, classname).value.diags == st.diags + ClassDiagnostics(tb, classname)
  {
    var dest := DestClass(tb, classname);
    var g := if dest in st.graph || classname == DescriptionClass then st.graph else st.graph[dest := map[]];
    CoherentFacts(tb, classname);
    if dest in tb.attributes {
      RunInstancesCounter(src, classname, TargetOf(tb, classname), st.(graph := g), src.items[classname].keys);
    }
  }

  lemma {:induction false} RunClassesOutcome(src: Source, tb: Tables, st: State, classes: seq<string>)
    requires WellFormed(src) && Coherent(tb) && (forall c | c in classes :: c in src.items) && Distinct(classes)
    ensures RunClasses(src, tb, st, classes).Err? <==> ParameterClass in classes && FirstFailure(src, Parameters(src)).Some?
    ensures RunClasses(src, tb, st, classes).Err? ==> RunClasses(src, tb, st, classes).error == FirstFailure(src, Parameters(src)).value
    decreases |classes|
  {
    if classes != [] {
      DistinctTail(classes);
      ClassStepOutcome(src, tb, st, classes[0]);
      var r := ClassStep(src, tb, st, classes[0]);
      if r.Ok? {
        RunClassesOutcome(src, tb, r.value, classes[1..]);
      }
    }
  }

  lemma {:induction false} RunClassesKeys(src: Source, tb: Tables, st: State, classes: seq<string>, e: string)
    requires WellFormed(src) && Coherent(tb) && (forall c | c in classes :: c in src.items) && RunClasses(src, tb, st, classes).Ok?
    ensures e in RunClasses(src, tb, st, classes).value.graph
        <==> e in st.graph || e in Buckets(tb, classes) || (ParameterClass in classes && Parameters(src) != [] && e == UsedClass)
    decreases |classes|
  {
    if classes != [] {
      var st' := ClassStep(src, tb, st, classes[0]).value;
      assert RunClasses(src, tb, st, classes) == RunClasses(src, tb, st', classes[1..]);
      ClassStepKeys(src, tb, st, classes[0], e);
      RunClassesKeys(src, tb, st', classes[1..], e);
      assert ParameterClass in classes <==> ParameterClass == classes[0] || ParameterClass in classes[1..];
    }
  }

  lemma {:induction false} RunClassesCounter(src: Source, tb: Tables, st: State, classes: seq<string>)
    requires WellFormed(src) && Coherent(tb) && (forall c | c in classes :: c in src.items) && Distinct(classes)
    requires RunClasses(src, tb, st, classes).Ok?
    ensures RunClasses(src, tb, st, classes).value.numParam
         == st.numParam + (if ParameterClass in classes then |Parameters(src)| else 0)
    decreases |classes|
  {
    if classes != [] {
      DistinctTail(classes);
      var st' := ClassStep(src, tb, st, classes[0]).value;
      assert RunClasses(src, tb, st, classes) == RunClasses(src, tb, st', classes[1..]);
      ClassStepCounter(src, tb, st, classes[0]);
      RunClassesCounter(src, tb, st', classes[1..]);
    }
  }

  lemma {:induction false} RunClassesPrints(src: Source, tb: Tables, st: State, classes: seq<string>)
    requires WellFormed(src) && Coherent(tb) && (forall c | c in classes :: c in src.items)
    requires RunClasses(src, tb, st, classes).Ok?
    ensures RunClasses(src, tb, st, classes).value.diags == Printed(tb, st.diags, classes)
    decreases |classes|
  {
    if classes != [] {
      var st' := ClassStep(src, tb, st, classes[0]).value;
      assert RunClasses(src, tb, st, classes) == RunClasses(src, tb, st', classes[1..]);
      ClassStepCounter(src, tb, st, classes[0]);
      RunClassesPrints(src, tb, st', classes[1..]);
    }
  }

  lemma {:induction false} RunInstancesKeepsBucket(src: Source, classname: string, t: Target, st: State, ids: seq<string>, d: string)
    requires WellFormed(src) && classname in src.items
    requires forall x | x in ids :: x in src.items[classname].items
    requires RunInstances(src, classname, t, st, ids).Ok?
    requires d in st.graph && d != t.rule.w3cClass && (classname == ParameterClass ==> d != UsedClass)
    ensures d in RunInstances(src, classname, t, st, ids).value.graph
    ensures RunInstances(src, classname, t, st, ids).value.graph[d] == st.graph[d]
    decreases |ids|
  {
    if ids != [] {
      var x := ids[0];
      var attrs := src.items[classname].items[x];
      var st' := InstanceStep(src, classname, t, st, x).value;
      assert RunInstances(src, classname, t, st, ids) == RunInstances(src, classname, t, st', ids[1..]);
      if classname == ParameterClass {
        var g := Put(st.graph, t.rule.w3cClass, x, MergedParameter(src, t, attrs));
        PutFacts(st.graph, t.rule.w3cClass, x, MergedParameter(src, t, attrs));
        PutFacts(g, UsedClass, SynthId(st.numParam), UsedLink(attrs.items[ActivityKey], x));
      } else {
        PutFacts(st.graph, t.rule.w3cClass, x, Annotated(t, attrs));
      }
      RunInstancesKeepsBucket(src, classname, t, st', ids[1..], d);
    }
  }

  lemma ClassStepKeepsBucket(src: Source, tb: Tables, st: State, classname: string, d: string)
    requires WellFormed(src) && Coherent(tb) && classname in src.items && ClassStep(src, tb, st, classname).Ok?
    requires d in st.graph && d != DestClass(tb, classname) && (classname == ParameterClass ==> d != UsedClass)
    ensures d in ClassStep(src, tb, st, classname).value.graph
    ensures ClassStep(src, tb, st, classname).value.graph[d] == st.graph[d]
  {
    var dest := DestClass(tb, classname);
    var g := if dest in st.graph || classname == DescriptionClass then st.graph else st.graph[dest := map[]];
    CoherentFacts(tb, classname);
    if dest in tb.attributes {
      RunInstancesKeepsBucket(src, classname, TargetOf(tb, classname), st.(graph := g), src.items[classname].keys, d);
    }
  }

  lemma {:induction false} RunClassesKeepsBucket(src: Source, tb: Tables, st: State, classes: seq<string>, d: string)
    requires WellFormed(src) && Coherent(tb) && (forall c | c in classes :: c in src.items) && RunClasses(src, tb, st, classes).Ok?
    requires d in st.graph && (forall c | c in classes :: DestClass(tb, c) != d) && (ParameterClass in classes ==> d != UsedClass)
    ensures d in RunClasses(src, tb, st, classes).value.graph
    ensures RunClasses(src, tb, st, classes).value.graph[d] == st.graph[d]
    decreases |classes|
  {
    if classes != [] {
      var st' := ClassStep(src, tb, st, classes[0]).value;
      assert RunClasses(src, tb, st, classes) == RunClasses(src, tb, st', classes[1..]);
      ClassStepKeepsBucket(src, tb, st, classes[0], d);
      RunClassesKeepsBucket(src, tb, st', classes[1..], d);
    }
  }

  lemma ClassStepKeepsEntry(src: Source, tb: Tables, st: State, classname: string, d: string, y: string)
    requires WellFormed(src) && Coherent(tb) && classname in src.items && ClassStep(src, tb, st, classname).Ok?
    requires Has(st.graph, d, y)
    requires DestClass(tb, classname) == d ==> d in tb.attributes && y !in src.items[classname].items
    requires classname == ParameterClass && d == UsedClass ==> forall n: nat | n >= st.numParam :: y != SynthId(n)
    ensures Has(ClassStep(src, tb, st, classname).value.graph, d, y)
    ensures ClassStep(src, tb, st, classname).value.graph[d][y] == st.graph[d][y]
  {
    var dest := DestClass(tb, classname);
    var g := if dest in st.graph || classname == DescriptionClass then st.graph else st.graph[dest := map[]];
    CoherentFacts(tb, classname);
    if dest in tb.attributes {
      assert Has(g, d, y) && g[d][y] == st.graph[d][y];
      forall x | x in src.items[classname].keys ensures x in src.items[classname].items { }
      RunInstancesKeepsEntry(src, classname, TargetOf(tb, classname), st.(graph := g), src.items[classname].keys, d, y);
    }
  }

  lemma {:induction false} RunClassesKeepsEntry(src: Source, tb: Tables, st: State, classes: seq<string>, d: string, y: string)
    requires WellFormed(src) && Coherent(tb) && (forall c | c in classes :: c in src.items) && RunClasses(src, tb, st, classes).Ok?
    requires Has(st.graph, d, y)
    requires forall c | c in classes && DestClass(tb, c) == d :: d in tb.attributes && y !in src.items[c].items
    requires ParameterClass in classes && d == UsedClass ==> forall n: nat | n >= st.numParam :: y != SynthId(n)
    ensures Has(RunClasses(src, tb, st, classes).value.graph, d, y)
    ensures RunClasses(src, tb, st, classes).value.graph[d][y] == st.graph[d][y]
    decreases |classes|
  {
    if classes != [] {
      var st' := ClassStep(src, tb, st, classes[0]).value;
      assert RunClasses(src, tb, st, classes) == RunClasses(src, tb, st', classes[1..]);
      ClassStepCounter(src, tb, st, classes[0]);
      ClassStepKeepsEntry(src, tb, st, classes[0], d, y);
      RunClassesKeepsEntry(src, tb, st', classes[1..], d, y);
    }
  }

  /** `g` holds, under `id`, the usage link from the activity a parameter with
      attributes `attrs` names to the parameter entity `x`. */
  predicate LinksAt(g: Graph, id: string, attrs: Dict<Value>, x: string) {
    && ActivityKey in attrs.items
    && Has(g, UsedClass, id)
    && g[UsedClass][id] == UsedLink(attrs.items[ActivityKey], x)
  }

  /** A parameter's pass adds its `used` link under the current counter value. */
  lemma ParameterStepLink(src: Source, t: Target, st: State, x: string)
    requires WellFormed(src) && ParameterClass in src.items && x in src.items[ParameterClass].items
    requires ParameterStep(src, t, st, x).Ok? && t.rule.w3cClass != UsedClass
    ensures ParameterStep(src, t, st, x).value.numParam == st.numParam + 1
    ensures LinksAt(ParameterStep(src, t, st, x).value.graph, SynthId(st.numParam), src.items[ParameterClass].items[x], x)
  {
    var attrs := src.items[ParameterClass].items[x];
    var g := Put(st.graph, t.rule.w3cClass, x, MergedParameter(src, t, attrs));
    PutFacts(g, UsedClass, SynthId(st.numParam), UsedLink(attrs.items[ActivityKey], x));
  }

  /** A link numbered below the counter survives the rest of the parameter loop. */
  lemma RunInstancesKeepsLink(src: Source, t: Target, st: State, ids: seq<string>, n: nat)
    requires WellFormed(src) && ParameterClass in src.items
    requires forall x | x in ids :: x in src.items[ParameterClass].items
    requires RunInstances(src, ParameterClass, t, st, ids).Ok?
    requires t.rule.w3cClass != UsedClass && n < st.numParam && Has(st.graph, UsedClass, SynthId(n))
    ensures Has(RunInstances(src, ParameterClass, t, st, ids).value.graph, UsedClass, SynthId(n))
    ensures RunInstances(src, ParameterClass, t, st, ids).value.graph[UsedClass][SynthId(n)] == st.graph[UsedClass][SynthId(n)]
  {
    forall m: nat | m >= st.numParam ensures SynthId(n) != SynthId(m) {
      SynthIdsDistinct(n, m);
    }
    RunInstancesKeepsEntry(src, ParameterClass, t, st, ids, UsedClass, SynthId(n));
  }

  /** The `used` link of the `j`-th parameter of the loop carries the counter
      value it was created with. */
  lemma {:induction false} RunInstancesLinks(src: Source, t: Target, st: State, ids: seq<string>, j: nat, n: nat)
    requires WellFormed(src) && ParameterClass in src.items
    requires forall x | x in ids :: x in src.items[ParameterClass].items
    requires RunInstances(src, ParameterClass, t, st, ids).Ok?
    requires t.rule.w3cClass != UsedClass && j < |ids| && n == st.numParam + j
    ensures LinksAt(RunInstances(src, ParameterClass, t, st, ids).value.graph, SynthId(n),
                    src.items[ParameterClass].items[ids[j]], ids[j])
    decreases |ids|
  {
    var st' := ParameterStep(src, t, st, ids[0]).value;
    assert RunInstances(src, ParameterClass, t, st, ids) == RunInstances(src, ParameterClass, t, st', ids[1..]);
    ParameterStepLink(src, t, st, ids[0]);
    if j == 0 {
      RunInstancesKeepsLink(src, t, st', ids[1..], st.numParam);
    } else {
      RunInstancesLinks(src, t, st', ids[1..], j - 1, n);
      assert ids[1..][j - 1] == ids[j];
    }
  }

  /** A successful pass over the parameter class links its `k`-th parameter
      under the counter value the pass started from, plus `k`. */
  lemma ClassStepLinks(src: Source, tb: Tables, st: State, k: nat)
    requires WellFormed(src) && Coherent(tb) && ParameterClass in src.items
    requires ClassStep(src, tb, st, ParameterClass).Ok? && k < |Parameters(src)|
    ensures LinksAt(ClassStep(src, tb, st, ParameterClass).value.graph, SynthId(st.numParam + k),
                    src.items[ParameterClass].items[Parameters(src)[k]], Parameters(src)[k])
  {
    var st0 := MappedPass(src, tb, st, ParameterClass);
    RunInstancesLinks(src, TargetOf(tb, ParameterClass), st0, src.items[ParameterClass].keys, k, st.numParam + k);
  }

  /** Every entry after an instance loop was there before, is one of the
      loop's own ids in its destination class, or is a link the loop
      synthesised. */
  lemma {:induction false} RunInstancesSourced(src: Source, classname: string, t: Target, st: State, ids: seq<string>,
                                               d: string, y: string)
    requires WellFormed(src) && classname in src.items
    requires forall x | x in ids :: x in src.items[classname].items
    requires RunInstances(src, classname, t, st, ids).Ok?
    requires Has(RunInstances(src, classname, t, st, ids).value.graph, d, y)
    ensures || Has(st.graph, d, y)
            || (d == t.rule.w3cClass && y in ids)
            || (classname == ParameterClass && d == UsedClass
                && y in SynthIds(st.numParam, RunInstances(src, classname, t, st, ids).value.numParam))
    decreases |ids|
  {
    if ids != [] {
      var x := ids[0];
      var st' := InstanceStep(src, classname, t, st, x).value;
      var out := RunInstances(src, classname, t, st', ids[1..]).value;
      assert RunInstances(src, classname, t, st, ids).value == out;
      InstanceStepShape(src, classname, t, st, x);
      RunInstancesCounter(src, classname, t, st', ids[1..]);
      RunInstancesSourced(src, classname, t, st', ids[1..], d, y);
      SynthIdsSplit(st.numParam, st'.numParam, out.numParam);
      if classname == ParameterClass {
        assert SynthId(st.numParam) in SynthIds(st.numParam, st'.numParam);
      }
      if Has(st'.graph, d, y) {
        InstanceStepSourced(src, classname, t, st, x, d, y);
      }
      assert y in ids[1..] ==> y in ids;
    }
  }

  /** Every entry after a class pass was there before, is an instance of the
      class in its destination, or is a link the pass synthesised. */
  lemma ClassStepSourced(src: Source, tb: Tables, st: State, classname: string, d: string, y: string)
    requires WellFormed(src) && Coherent(tb) && classname in src.items && ClassStep(src, tb, st, classname).Ok?
    requires Has(ClassStep(src, tb, st, classname).value.graph, d, y)
    ensures || Has(st.graph, d, y)
            || (classname != DescriptionClass && d == DestClass(tb, classname) && y in src.items[classname].items)
            || (d == UsedClass && y in SynthIds(st.numParam, ClassStep(src, tb, st, classname).value.numParam))
  {
    if DestClass(tb, classname) in tb.attributes {
      var st0 := MappedPass(src, tb, st, classname);
      CoherentFacts(tb, classname);
      RunInstancesSourced(src, classname, TargetOf(tb, classname), st0, src.items[classname].keys, d, y);
    }
  }

  /** Every entry after the class loop was there before, is an instance of one
      of the classes in its destination, or is a synthesised link. */
  lemma {:induction false} RunClassesSourced(src: Source, tb: Tables, st: State, classes: seq<string>, d: string, y: string)
    requires WellFormed(src) && Coherent(tb) && (forall c | c in classes :: c in src.items)
    requires RunClasses(src, tb, st, classes).Ok?
    requires Has(RunClasses(src, tb, st, classes).value.graph, d, y)
    ensures || Has(st.graph, d, y)
            || Sourced(src, tb, classes, d, y)
            || (d == UsedClass && y in SynthIds(st.numParam, RunClasses(src, tb, st, classes).value.numParam))
    decreases |classes|
  {
    if classes != [] {
      var c := classes[0];
      var st' := ClassStep(src, tb, st, c).value;
      var out := RunClasses(src, tb, st', classes[1..]).value;
      assert RunClasses(src, tb, st, classes).value == out;
      RunClassesGrows(src, tb, st', classes[1..]);
      RunClassesSourced(src, tb, st', classes[1..], d, y);
      ClassStepCounter(src, tb, st, c);
      SynthIdsSplit(st.numParam, st'.numParam, out.numParam);
      if Sourced(src, tb, classes[1..], d, y) {
        var c' :| c' in classes[1..] && c' in src.items && c' != DescriptionClass && DestClass(tb, c') == d && y in src.items[c'].items;
        assert c' in classes;
      } else if Has(st'.graph, d, y) {
        ClassStepSourced(src, tb, st, c, d, y);
        assert c in classes;
      }
    }
  }

  /** The counter never goes down. */
  lemma {:induction false} RunClassesGrows(src: Source, tb: Tables, st: State, classes: seq<string>)
    requires WellFormed(src) && Coherent(tb) && (forall c | c in classes :: c in src.items)
    requires RunClasses(src, tb, st, classes).Ok?
    ensures RunClasses(src, tb, st, classes).value.numParam >= st.numParam
    decreases |classes|
  {
    if classes != [] {
      var st' := ClassStep(src, tb, st, classes[0]).value;
      assert RunClasses(src, tb, st, classes) == RunClasses(src, tb, st', classes[1..]);
      ClassStepCounter(src, tb, st, classes[0]);
      RunClassesGrows(src, tb, st', classes[1..]);
    }
  }

  /** The buckets of a whole run: one per non-description class, under its
      destination name, plus `used` when there are parameters; never the
      description class. */
  lemma RunBuckets(src: Source, tb: Tables)
    requires WellFormed(src) && Coherent(tb) && Run(src, tb).Ok?
    ensures Run(src, tb).value.graph.Keys
         == (set c | c in src.items && c != DescriptionClass :: DestClass(tb, c))
            + (if Parameters(src) != [] then {UsedClass} else {})
    ensures DescriptionClass !in Run(src, tb).value.graph
  {
    BucketsOf(tb, src.keys);
    forall e ensures e in Run(src, tb).value.graph
                 <==> e in Buckets(tb, src.keys) || (Parameters(src) != [] && e == UsedClass) {
      RunClassesKeys(src, tb, State(map[], 0, []), src.keys, e);
    }
    assert (set c | c in src.keys && c != DescriptionClass :: DestClass(tb, c))
        == (set c | c in src.items && c != DescriptionClass :: DestClass(tb, c));
    forall c | c in src.items && c != DescriptionClass ensures DestClass(tb, c) != DescriptionClass {
      CoherentFacts(tb, c);
    }
  }

  /** An instance of a class with an attribute table ends up converted in its
      destination bucket, unless a later class writes the same id into the
      same bucket or the id could collide with a synthesised link. */
  lemma RunConverts(src: Source, tb: Tables, i: nat, x: string)
    requires WellFormed(src) && Coherent(tb) && Run(src, tb).Ok? && i < |src.keys|
    requires DestClass(tb, src.keys[i]) in tb.attributes && x in src.items[src.keys[i]].items
    requires forall j | i < j < |src.keys| && DestClass(tb, src.keys[j]) == DestClass(tb, src.keys[i]) ::
               x !in src.items[src.keys[j]].items
    requires DestClass(tb, src.keys[i]) == UsedClass ==> !IsSynthId(x)
    ensures src.keys[i] == ParameterClass ==> Resolvable(src, src.items[src.keys[i]].items[x])
    ensures Has(Run(src, tb).value.graph, DestClass(tb, src.keys[i]), x)
    ensures Run(src, tb).value.graph[DestClass(tb, src.keys[i])][x]
         == Converted(src, src.keys[i], TargetOf(tb, src.keys[i]), src.items[src.keys[i]].items[x])
  {
    var c := src.keys[i];
    var before, after := SplitAt(src, tb, i);
    var dest := DestClass(tb, c);
    var st0 := MappedPass(src, tb, before, c);
    RunInstancesSets(src, c, TargetOf(tb, c), st0, src.items[c].keys, x);
    var rest := src.keys[i + 1..];
    forall c' | c' in rest && DestClass(tb, c') == dest ensures dest in tb.attributes && x !in src.items[c'].items {
      var j :| 0 <= j < |rest| && rest[j] == c';
      assert src.keys[i + 1 + j] == c';
    }
    forall n: nat | n >= after.numParam && dest == UsedClass ensures x != SynthId(n) {
      SynthIdsDistinct(n, n);
    }
    RunClassesKeepsEntry(src, tb, after, rest, dest, x);
  }

  /** The run split around the parameter class: the classes before it leave
      the counter at zero, and the parameter class brings it to the number of
      parameters. */
  lemma SplitAtParameters(src: Source, tb: Tables) returns (i: nat, before: State, after: State)
    requires WellFormed(src) && Coherent(tb) && Run(src, tb).Ok? && ParameterClass in src.items
    ensures i < |src.keys| && src.keys[i] == ParameterClass
    ensures ClassStep(src, tb, before, ParameterClass) == Ok(after)
    ensures RunClasses(src, tb, after, src.keys[i + 1..]) == Run(src, tb)
    ensures before.numParam == 0 && after.numParam == |Parameters(src)|
  {
    i :| 0 <= i < |src.keys| && src.keys[i] == ParameterClass;
    before, after := SplitAt(src, tb, i);
    var pre := src.keys[..i];
    assert Distinct(pre) && ParameterClass !in pre by {
      forall a, b | 0 <= a < b < |pre| ensures pre[a] != pre[b] { assert pre[a] == src.keys[a] && pre[b] == src.keys[b]; }
    }
    RunClassesCounter(src, tb, State(map[], 0, []), pre);
    ClassStepCounter(src, tb, before, ParameterClass);
  }

  /** The `k`-th parameter of the document is linked to its activity under
      the `k`-th synthesised id, provided no class landing in `used` brings
      instances whose ids look synthesised. */
  lemma RunLinks(src: Source, tb: Tables, k: nat)
    requires WellFormed(src) && Coherent(tb) && Run(src, tb).Ok? && k < |Parameters(src)|
    requires forall c, y | c in src.items && DestClass(tb, c) == UsedClass && y in src.items[c].items :: !IsSynthId(y)
    ensures LinksAt(Run(src, tb).value.graph, SynthId(k),
                    src.items[ParameterClass].items[Parameters(src)[k]], Parameters(src)[k])
  {
    var i, before, after := SplitAtParameters(src, tb);
    var rest := src.keys[i + 1..];
    ClassStepLinks(src, tb, before, k);
    assert SynthId(before.numParam + k) == SynthId(k);
    SynthIdsDistinct(k, k);
    forall n: nat | n >= after.numParam ensures SynthId(k) != SynthId(n) {
      SynthIdsDistinct(k, n);
    }
    forall c' | c' in rest && DestClass(tb, c') == UsedClass ensures SynthId(k) !in src.items[c'].items { }
    RunClassesKeepsEntry(src, tb, after, rest, UsedClass, SynthId(k));
  }


  /** Every entry of the destination document is an instance of some source
      class other than the description class, in that class's destination
      bucket, or one of the links synthesised for the parameters. */
  lemma RunSourced(src: Source, tb: Tables, d: string, y: string)
    requires WellFormed(src) && Coherent(tb) && Run(src, tb).Ok? && Has(Run(src, tb).value.graph, d, y)
    ensures Sourced(src, tb, src.keys, d, y) || (d == UsedClass && y in SynthIds(0, |Parameters(src)|))
  {
    RunClassesSourced(src, tb, State(map[], 0, []), src.keys, d, y);
    RunClassesCounter(src, tb, State(map[], 0, []), src.keys);
  }
}
