/** The earlier converter revision (convert-ivoaprov-w3c.py): classes are
    renamed by a three-entry table, attributes by a per-destination table, and
    every other class is copied through with a warning. */
module IvoaProvW3c {
  import opened Prov
  import opened Mapping

  /** Per destination class, the renaming of VO attribute names to W3C names. */
  const AttributeMapping: map<string, map<string, string>> := map[
    "activity" := map["voprov:id" := "prov:id", "voprov:name" := "prov:label", "voprov:type" := "prov:type",
                      "voprov:annotation" := "prov:description", "voprov:startTime" := "prov:startTime",
                      "voprov:endTime" := "prov:endTime"],
    "entity" := map["voprov:id" := "prov:id", "voprov:name" := "prov:label", "voprov:type" := "prov:type",
                    "voprov:annotation" := "prov:description"],
    "agent" := map["voprov:id" := "prov:id", "voprov:name" := "prov:label", "voprov:type" := "prov:type"],
    "used" := map["voprov:activity" := "prov:activity", "voprov:entity" := "prov:entity", "voprov:role" := "prov:role"],
    "wasGeneratedBy" := map["voprov:entity" := "prov:entity", "voprov:activity" := "prov:activity",
                            "voprov:role" := "prov:role"],
    "wasAssociatedWith" := map["voprov:activity" := "prov:activity", "voprov:agent" := "prov:agent",
                               "voprov:role" := "prov:role"],
    "wasAttributedTo" := map["voprov:entity" := "prov:entity", "voprov:agent" := "prov:agent"],
    "hadMember" := map["voprov:collection" := "prov:collection", "voprov:entity" := "prov:entity"],
    "wasInfluencedBy" := map["voprov:activityFlow" := "prov:influencee", "voprov:activity" := "prov:influencer"],
    "wasDerivedFrom" := map["voprov:generatedEntity" := "prov:generatedEntity", "voprov:usedEntity" := "prov:usedEntity"],
    "wasInformedBy" := map["voprov:informed" := "prov:informed", "voprov:informant" := "prov:informant"]
  ]

  /** The source classes that change name, with the annotations they inject. */
  const ClassMapping: map<string, ClassRule> := map[
    "activityFlow" := ClassRule("activity", Some("voprov:activityFlow"), None),
    "hadStep" := ClassRule("wasInfluencedBy", Some("voprov:hadStep"), None),
    "collection" := ClassRule("entity", None, Some("prov:collection"))
  ]

  /** Annotation keys of this revision: bare names, without a namespace prefix. */
  const VotypeKey := "votype"
  const TypeKey := "type"

  function RuleFor(classname: string): ClassRule {
    if classname in ClassMapping then ClassMapping[classname] else ClassRule(classname, None, None)
  }

  function DestClass(classname: string): string {
    RuleFor(classname).w3cClass
  }

  /** Every renamed class lands in a class that has an attribute table, so a
      class without a table is one that kept its own name. */
  lemma UnmappedKeepsName(classname: string)
    ensures DestClass(classname) !in AttributeMapping ==> classname !in ClassMapping && DestClass(classname) == classname
  {
  }

  /** One instance of a class with an attribute table: renamed, then annotated. */
  function ConvertInstance(classname: string, attrs: Dict<Value>): Instance
    requires DestClass(classname) in AttributeMapping
    requires ValidDict(attrs)
  {
    Annotate(Renamed(AttributeMapping[DestClass(classname)], attrs), RuleFor(classname), VotypeKey, TypeKey)
  }

  datatype State = State(graph: Graph, diags: seq<Diagnostic>)

  /** The instance loop of one class with an attribute table, from state `st`
      over the instance ids still to do. */
  function RunInstances(src: Source, classname: string, st: State, ids: seq<string>): State
    requires WellFormed(src) && classname in src.items && DestClass(classname) in AttributeMapping
    requires forall x | x in ids :: x in src.items[classname].items
    decreases |ids|
  {
    if ids == [] then st
    else
      var inst := ConvertInstance(classname, src.items[classname].items[ids[0]]);
      RunInstances(src, classname, st.(graph := Put(st.graph, DestClass(classname), ids[0], inst)), ids[1..])
  }

  /** One pass of the class loop: create or reuse the destination bucket, then
      convert the instances, or copy the class through with a warning. */
  function ClassStep(src: Source, st: State, classname: string): State
    requires WellFormed(src) && classname in src.items
  {
    var dest := DestClass(classname);
    var g := if dest in st.graph then st.graph else st.graph[dest := map[]];
    if dest in AttributeMapping then RunInstances(src, classname, st.(graph := g), src.items[classname].keys)
    else State(g[classname := Verbatim(src.items[classname])], st.diags + [NoMapping(classname)])
  }

  /** The class loop from state `st` over the classes still to do. */
  function RunClasses(src: Source, st: State, classes: seq<string>): State
    requires WellFormed(src) && forall c | c in classes :: c in src.items
    decreases |classes|
  {
    if classes == [] then st else RunClasses(src, ClassStep(src, st, classes[0]), classes[1..])
  }

  /** The whole conversion of a source document. */
  function Conversion(src: Source): State
    requires WellFormed(src)
  {
    RunClasses(src, State(map[], []), src.keys)
  }

  /** The conversion loop of `main()`, building the destination document in place. */
  method Convert(src: Source) returns (w3c: Graph, warnings: seq<Diagnostic>)
    requires WellFormed(src)
    ensures State(w3c, warnings) == Conversion(src)
  {
    w3c, warnings := map[], [];
    for i := 0 to |src.keys|
      invariant RunClasses(src, State(w3c, warnings), src.keys[i..]) == Conversion(src)
    {
      var classname := src.keys[i];
      assert src.keys[i..][1..] == src.keys[i + 1..];
      var classVotype: Option<string> := None;
      var classType: Option<string> := None;
      var w3cClassname: string;
      if classname in ClassMapping {
        w3cClassname := ClassMapping[classname].w3cClass;
        classVotype := ClassMapping[classname].votype;
        classType := ClassMapping[classname].typ;
      } else {
        w3cClassname := classname;
      }
      assert ClassRule(w3cClassname, classVotype, classType) == RuleFor(classname);
      if w3cClassname !in w3c {
        w3c := w3c[w3cClassname := map[]];
      }
      if w3cClassname in AttributeMapping {
        var bucket := src.items[classname];
        for k := 0 to |bucket.keys|
          invariant w3cClassname in w3c
          invariant RunClasses(src, RunInstances(src, classname, State(w3c, warnings), bucket.keys[k..]), src.keys[i + 1..])
                 == Conversion(src)
        {
          var instance := bucket.keys[k];
          assert bucket.keys[k..][1..] == bucket.keys[k + 1..];
          var converted := RenameAttributes(AttributeMapping[w3cClassname], bucket.items[instance]);
          if classVotype.Some? {
            converted := converted[VotypeKey := Text(classVotype.value)];
          }
          if classType.Some? {
            converted := converted[TypeKey := Text(classType.value)];
          }
          assert converted == ConvertInstance(classname, bucket.items[instance]);
          w3c := w3c[w3cClassname := w3c[w3cClassname][instance := converted]];
        }
      } else {
        warnings := warnings + [NoMapping(classname)];
        w3c := w3c[classname := Verbatim(src.items[classname])];
      }
    }
  }

  // ---------------------------------------------------------------------------
  // Properties of the conversion

  lemma {:induction false} RunClassesAppend(src: Source, st: State, a: seq<string>, b: seq<string>)
    requires WellFormed(src)
    requires forall c | c in a :: c in src.items
    requires forall c | c in b :: c in src.items
    ensures RunClasses(src, st, a + b) == RunClasses(src, RunClasses(src, st, a), b)
    decreases |a|
  {
    if a == [] {
      assert a + b == b;
    } else {
      assert (a + b)[0] == a[0];
      assert (a + b)[1..] == a[1..] + b;
      RunClassesAppend(src, ClassStep(src, st, a[0]), a[1..], b);
    }
  }

  /** The state right before class `src.keys[i]` is processed, and right after. */
  lemma SplitAt(src: Source, i: nat) returns (before: State, after: State)
    requires WellFormed(src) && i < |src.keys|
    ensures before == RunClasses(src, State(map[], []), src.keys[..i])
    ensures after == ClassStep(src, before, src.keys[i])
    ensures Conversion(src) == RunClasses(src, after, src.keys[i + 1..])
  {
    before := RunClasses(src, State(map[], []), src.keys[..i]);
    after := ClassStep(src, before, src.keys[i]);
    assert src.keys == src.keys[..i] + src.keys[i..];
    RunClassesAppend(src, State(map[], []), src.keys[..i], src.keys[i..]);
    assert src.keys[i..][1..] == src.keys[i + 1..];
  }

  lemma {:induction false} RunInstancesKeys(src: Source, classname: string, st: State, ids: seq<string>, e: string)
    requires WellFormed(src) && classname in src.items && DestClass(classname) in AttributeMapping
    requires forall x | x in ids :: x in src.items[classname].items
    ensures e in RunInstances(src, classname, st, ids).graph <==> e in st.graph || (ids != [] && e == DestClass(classname))
    decreases |ids|
  {
    if ids != [] {
      var inst := ConvertInstance(classname, src.items[classname].items[ids[0]]);
      RunInstancesKeys(src, classname, st.(graph := Put(st.graph, DestClass(classname), ids[0], inst)), ids[1..], e);
    }
  }

  /** The instance loop prints nothing. */
  lemma {:induction false} RunInstancesQuiet(src: Source, classname: string, st: State, ids: seq<string>)
    requires WellFormed(src) && classname in src.items && DestClass(classname) in AttributeMapping
    requires forall x | x in ids :: x in src.items[classname].items
    ensures RunInstances(src, classname, st, ids).diags == st.diags
    decreases |ids|
  {
    if ids != [] {
      var inst := ConvertInstance(classname, src.items[classname].items[ids[0]]);
      RunInstancesQuiet(src, classname, st.(graph := Put(st.graph, DestClass(classname), ids[0], inst)), ids[1..]);
    }
  }

  lemma ClassStepKeys(src: Source, st: State, classname: string, e: string)
    requires WellFormed(src) && classname in src.items
    ensures e in ClassStep(src, st, classname).graph <==> e in st.graph || e == DestClass(classname)
  {
    var dest := DestClass(classname);
    var g := if dest in st.graph then st.graph else st.graph[dest := map[]];
    if dest in AttributeMapping {
      RunInstancesKeys(src, classname, st.(graph := g), src.items[classname].keys, e);
    } else {
      UnmappedKeepsName(classname);
    }
  }

  lemma {:induction false} RunClassesKeys(src: Source, st: State, classes: seq<string>, e: string)
    requires WellFormed(src) && forall c | c in classes :: c in src.items
    ensures e in RunClasses(src, st, classes).graph <==> e in st.graph || exists c | c in classes :: e == DestClass(c)
    decreases |classes|
  {
    if classes != [] {
      ClassStepKeys(src, st, classes[0], e);
      RunClassesKeys(src, ClassStep(src, st, classes[0]), classes[1..], e);
      assert forall c :: c in classes <==> c == classes[0] || c in classes[1..];
    }
  }

  /** The destination classes are exactly the source classes under class
      renaming: every source class creates or reuses its bucket. */
  lemma OutputClasses(src: Source)
    requires WellFormed(src)
    ensures Conversion(src).graph.Keys == set c | c in src.items :: DestClass(c)
  {
    forall e ensures e in Conversion(src).graph <==> exists c | c in src.keys :: e == DestClass(c) {
      RunClassesKeys(src, State(map[], []), src.keys, e);
    }
  }

  lemma {:induction false} RunInstancesKeepsBucket(src: Source, classname: string, st: State, ids: seq<string>, d: string)
    requires WellFormed(src) && classname in src.items && DestClass(classname) in AttributeMapping
    requires forall x | x in ids :: x in src.items[classname].items
    requires d != DestClass(classname) && d in st.graph
    ensures d in RunInstances(src, classname, st, ids).graph
    ensures RunInstances(src, classname, st, ids).graph[d] == st.graph[d]
    decreases |ids|
  {
    if ids != [] {
      var inst := ConvertInstance(classname, src.items[classname].items[ids[0]]);
      RunInstancesKeepsBucket(src, classname, st.(graph := Put(st.graph, DestClass(classname), ids[0], inst)), ids[1..], d);
    }
  }

  lemma ClassStepKeepsBucket(src: Source, st: State, classname: string, d: string)
    requires WellFormed(src) && classname in src.items
    requires d != DestClass(classname) && d in st.graph
    ensures d in ClassStep(src, st, classname).graph
    ensures ClassStep(src, st, classname).graph[d] == st.graph[d]
  {
    var dest := DestClass(classname);
    var g := if dest in st.graph then st.graph else st.graph[dest := map[]];
    if dest in AttributeMapping {
      RunInstancesKeepsBucket(src, classname, st.(graph := g), src.items[classname].keys, d);
    } else {
      UnmappedKeepsName(classname);
    }
  }

  lemma {:induction false} RunClassesKeepsBucket(src: Source, st: State, classes: seq<string>, d: string)
    requires WellFormed(src) && forall c | c in classes :: c in src.items
    requires forall c | c in classes :: DestClass(c) != d
    requires d in st.graph
    ensures d in RunClasses(src, st, classes).graph
    ensures RunClasses(src, st, classes).graph[d] == st.graph[d]
    decreases |classes|
  {
    if classes != [] {
      ClassStepKeepsBucket(src, st, classes[0], d);
      RunClassesKeepsBucket(src, ClassStep(src, st, classes[0]), classes[1..], d);
    }
  }

  /** A class without an attribute table is copied verbatim under its own
      name; no other class writes into its bucket. */
  lemma UnmappedCopiedVerbatim(src: Source, classname: string)
    requires WellFormed(src) && classname in src.items
    requires DestClass(classname) !in AttributeMapping
    ensures classname in Conversion(src).graph
    ensures Conversion(src).graph[classname] == Verbatim(src.items[classname])
  {
    UnmappedKeepsName(classname);
    var i :| 0 <= i < |src.keys| && src.keys[i] == classname;
    var before, after := SplitAt(src, i);
    forall c | c in src.keys[i + 1..] ensures DestClass(c) != classname {
      var j :| i + 1 <= j < |src.keys| && src.keys[j] == c;
      assert src.keys[j] != src.keys[i];
      UnmappedKeepsName(c);
    }
    RunClassesKeepsBucket(src, after, src.keys[i + 1..], classname);
  }

  lemma {:induction false} RunClassesDiags(src: Source, st: State, classes: seq<string>, classname: string)
    requires WellFormed(src) && forall c | c in classes :: c in src.items
    ensures NoMapping(classname) in RunClasses(src, st, classes).diags
        <==> NoMapping(classname) in st.diags || (classname in classes && DestClass(classname) !in AttributeMapping)
    ensures forall dg | dg in RunClasses(src, st, classes).diags && dg !in st.diags :: dg.NoMapping?
    decreases |classes|
  {
    if classes != [] {
      var c := classes[0];
      var st' := ClassStep(src, st, c);
      var dest := DestClass(c);
      var g := if dest in st.graph then st.graph else st.graph[dest := map[]];
      if dest in AttributeMapping {
        RunInstancesQuiet(src, c, st.(graph := g), src.items[c].keys);
      }
      RunClassesDiags(src, st', classes[1..], classname);
      assert classname in classes <==> classname == c || classname in classes[1..];
    }
  }

  /** A warning is printed for a class exactly when it has no attribute table;
      the run prints no other diagnostic. */
  lemma Warnings(src: Source, classname: string)
    requires WellFormed(src)
    ensures NoMapping(classname) in Conversion(src).diags
        <==> classname in src.items && DestClass(classname) !in AttributeMapping
    ensures forall dg | dg in Conversion(src).diags :: dg.NoMapping?
  {
    RunClassesDiags(src, State(map[], []), src.keys, classname);
  }

  /** The parameter classes get no special case here: both are copied
      verbatim with a warning. */
  lemma ParameterClassesCopied(src: Source, classname: string)
    requires WellFormed(src) && classname in src.items
    requires classname == "parameter" || classname == "parameterDescription"
    ensures classname in Conversion(src).graph
    ensures Conversion(src).graph[classname] == Verbatim(src.items[classname])
    ensures NoMapping(classname) in Conversion(src).diags
  {
    UnmappedCopiedVerbatim(src, classname);
    Warnings(src, classname);
  }

  lemma {:induction false} RunInstancesKeepsEntry(src: Source, classname: string, st: State, ids: seq<string>, d: string, y: string)
    requires WellFormed(src) && classname in src.items && DestClass(classname) in AttributeMapping
    requires forall x | x in ids :: x in src.items[classname].items
    requires d in st.graph && y in st.graph[d]
    requires d == DestClass(classname) ==> y !in ids
    ensures d in RunInstances(src, classname, st, ids).graph && y in RunInstances(src, classname, st, ids).graph[d]
    ensures RunInstances(src, classname, st, ids).graph[d][y] == st.graph[d][y]
    decreases |ids|
  {
    if ids != [] {
      var inst := ConvertInstance(classname, src.items[classname].items[ids[0]]);
      RunInstancesKeepsEntry(src, classname, st.(graph := Put(st.graph, DestClass(classname), ids[0], inst)), ids[1..], d, y);
    }
  }

  lemma {:induction false} RunInstancesSets(src: Source, classname: string, st: State, ids: seq<string>, x: string)
    requires WellFormed(src) && classname in src.items && DestClass(classname) in AttributeMapping
    requires forall y | y in ids :: y in src.items[classname].items
    requires Distinct(ids) && x in ids
    ensures DestClass(classname) in RunInstances(src, classname, st, ids).graph
    ensures x in RunInstances(src, classname, st, ids).graph[DestClass(classname)]
    ensures RunInstances(src, classname, st, ids).graph[DestClass(classname)][x]
         == ConvertInstance(classname, src.items[classname].items[x])
    decreases |ids|
  {
    var inst := ConvertInstance(classname, src.items[classname].items[ids[0]]);
    var st' := st.(graph := Put(st.graph, DestClass(classname), ids[0], inst));
    if ids[0] == x {
      assert x !in ids[1..];
      RunInstancesKeepsEntry(src, classname, st', ids[1..], DestClass(classname), x);
    } else {
      RunInstancesSets(src, classname, st', ids[1..], x);
    }
  }

  lemma ClassStepKeepsEntry(src: Source, st: State, classname: string, d: string, y: string)
    requires WellFormed(src) && classname in src.items
    requires d in st.graph && y in st.graph[d]
    requires DestClass(classname) == d ==> d in AttributeMapping && y !in src.items[classname].items
    ensures d in ClassStep(src, st, classname).graph && y in ClassStep(src, st, classname).graph[d]
    ensures ClassStep(src, st, classname).graph[d][y] == st.graph[d][y]
  {
    var dest := DestClass(classname);
    var g := if dest in st.graph then st.graph else st.graph[dest := map[]];
    if dest in AttributeMapping {
      RunInstancesKeepsEntry(src, classname, st.(graph := g), src.items[classname].keys, d, y);
    } else {
      UnmappedKeepsName(classname);
    }
  }

  lemma {:induction false} RunClassesKeepsEntry(src: Source, st: State, classes: seq<string>, d: string, y: string)
    requires WellFormed(src) && forall c | c in classes :: c in src.items
    requires d in st.graph && y in st.graph[d]
    requires forall c | c in classes && DestClass(c) == d :: d in AttributeMapping && y !in src.items[c].items
    ensures d in RunClasses(src, st, classes).graph && y in RunClasses(src, st, classes).graph[d]
    ensures RunClasses(src, st, classes).graph[d][y] == st.graph[d][y]
    decreases |classes|
  {
    if classes != [] {
      ClassStepKeepsEntry(src, st, classes[0], d, y);
      RunClassesKeepsEntry(src, ClassStep(src, st, classes[0]), classes[1..], d, y);
    }
  }

  /** An instance of a class with an attribute table ends up renamed and
      annotated in the destination bucket, unless a later class feeding the
      same bucket has an instance with the same id (then the later one wins). */
  lemma MappedInstanceConverted(src: Source, i: nat, x: string)
    requires WellFormed(src) && i < |src.keys|
    requires DestClass(src.keys[i]) in AttributeMapping
    requires x in src.items[src.keys[i]].items
    requires forall j | i < j < |src.keys| && DestClass(src.keys[j]) == DestClass(src.keys[i]) ::
               x !in src.items[src.keys[j]].items
    ensures DestClass(src.keys[i]) in Conversion(src).graph
    ensures x in Conversion(src).graph[DestClass(src.keys[i])]
    ensures Conversion(src).graph[DestClass(src.keys[i])][x] == ConvertInstance(src.keys[i], src.items[src.keys[i]].items[x])
  {
    var classname := src.keys[i];
    var dest := DestClass(classname);
    var before, after := SplitAt(src, i);
    var g := if dest in before.graph then before.graph else before.graph[dest := map[]];
    RunInstancesSets(src, classname, before.(graph := g), src.items[classname].keys, x);
    forall c | c in src.keys[i + 1..] && DestClass(c) == dest
      ensures dest in AttributeMapping && x !in src.items[c].items
    {
      var j :| i + 1 <= j < |src.keys| && src.keys[j] == c;
    }
    RunClassesKeepsEntry(src, after, src.keys[i + 1..], dest, x);
  }

  /** Instance `y` of destination class `d` comes from some class in `classes`. */
  ghost predicate Sourced(src: Source, classes: seq<string>, d: string, y: string)
    requires WellFormed(src)
  {
    exists c | c in classes && c in src.items :: DestClass(c) == d && y in src.items[c].items
  }

  lemma {:induction false} RunInstancesSourced(src: Source, classname: string, st: State, ids: seq<string>)
    requires WellFormed(src) && classname in src.items && DestClass(classname) in AttributeMapping
    requires forall x | x in ids :: x in src.items[classname].items
    ensures forall d, y | Has(RunInstances(src, classname, st, ids).graph, d, y) ::
              Has(st.graph, d, y) || (d == DestClass(classname) && y in ids)
    decreases |ids|
  {
    if ids != [] {
      var inst := ConvertInstance(classname, src.items[classname].items[ids[0]]);
      var st' := st.(graph := Put(st.graph, DestClass(classname), ids[0], inst));
      RunInstancesSourced(src, classname, st', ids[1..]);
      var out := RunInstances(src, classname, st', ids[1..]);
      assert RunInstances(src, classname, st, ids) == out;
      forall d, y | Has(out.graph, d, y)
        ensures Has(st.graph, d, y) || (d == DestClass(classname) && y in ids)
      {
        if !Has(st'.graph, d, y) {
          assert y in ids[1..];
        }
      }
    }
  }

  lemma ClassStepSourced(src: Source, st: State, classname: string)
    requires WellFormed(src) && classname in src.items
    ensures forall d, y | Has(ClassStep(src, st, classname).graph, d, y) ::
              Has(st.graph, d, y) || (d == DestClass(classname) && y in src.items[classname].items)
  {
    var dest := DestClass(classname);
    var g := if dest in st.graph then st.graph else st.graph[dest := map[]];
    if dest in AttributeMapping {
      RunInstancesSourced(src, classname, st.(graph := g), src.items[classname].keys);
      forall y | y in src.items[classname].keys ensures y in src.items[classname].items { }
    } else {
      UnmappedKeepsName(classname);
    }
  }

  lemma {:induction false} RunClassesSourced(src: Source, st: State, classes: seq<string>)
    requires WellFormed(src) && forall c | c in classes :: c in src.items
    ensures forall d, y | Has(RunClasses(src, st, classes).graph, d, y) :: Has(st.graph, d, y) || Sourced(src, classes, d, y)
    decreases |classes|
  {
    if classes != [] {
      var c0 := classes[0];
      var st' := ClassStep(src, st, c0);
      ClassStepSourced(src, st, c0);
      RunClassesSourced(src, st', classes[1..]);
      var out := RunClasses(src, st', classes[1..]);
      assert RunClasses(src, st, classes) == out;
      forall d, y | Has(out.graph, d, y)
        ensures Has(st.graph, d, y) || Sourced(src, classes, d, y)
      {
        if !Has(st'.graph, d, y) {
          var c :| c in classes[1..] && c in src.items && DestClass(c) == d && y in src.items[c].items;
          assert c in classes;
        } else if !Has(st.graph, d, y) {
          assert c0 in classes && DestClass(c0) == d && y in src.items[c0].items;
        }
      }
    }
  }

  /** Nothing is synthesised: every destination instance id is the id of an
      instance of a source class that maps to that destination class. */
  lemma InstancesFromSource(src: Source)
    requires WellFormed(src)
    ensures forall d, y | Has(Conversion(src).graph, d, y) ::
              exists c | c in src.items :: DestClass(c) == d && y in src.items[c].items
  {
    RunClassesSourced(src, State(map[], []), src.keys);
  }
}
