/** What a whole run of the later converter revision guarantees about the
    document it writes, the lines it prints and the error it stops with. */
module ToW3cProperties {
  import opened Prov
  import opened Mapping
  import opened ToW3c

  /** The conversion stops exactly when some parameter's lookups do not all
      succeed, and it stops on the first such parameter in document order,
      with the failure of that parameter's first missing lookup. */
  lemma ConversionFails(src: Source)
    requires WellFormed(src)
    ensures Conversion(src).Err? <==> exists x | x in Parameters(src) :: !Resolvable(src, src.items[ParameterClass].items[x])
    ensures Conversion(src).Err? ==>
              exists k | 0 <= k < |Parameters(src)| ::
                && !Resolvable(src, src.items[ParameterClass].items[Parameters(src)[k]])
                && (forall j | 0 <= j < k :: Resolvable(src, src.items[ParameterClass].items[Parameters(src)[j]]))
                && Conversion(src).error
                   == ParameterFailure(src, Parameters(src)[k], src.items[ParameterClass].items[Parameters(src)[k]])
  {
    MappingsCoherent();
    RunClassesOutcome(src, Mappings, State(map[], 0, []), src.keys);
    FirstFailureSome(src, Parameters(src));
    if Conversion(src).Err? {
      var k := FirstFailureAt(src, Parameters(src));
    }
  }

  /** The destination document has one bucket per source class, under its
      destination name, except the description class; `used` is added when
      there are parameters. The description class never appears. */
  lemma ConversionBuckets(src: Source)
    requires WellFormed(src) && Conversion(src).Ok?
    ensures Conversion(src).value.graph.Keys
         == (set c | c in src.items && c != DescriptionClass :: DestClass(Mappings, c))
            + (if Parameters(src) != [] then {UsedClass} else {})
    ensures DescriptionClass !in Conversion(src).value.graph
  {
    MappingsCoherent();
    RunBuckets(src, Mappings);
  }

  /** The counter ends at the number of parameters: one link per parameter. */
  lemma ConversionCounts(src: Source)
    requires WellFormed(src) && Conversion(src).Ok?
    ensures Conversion(src).value.numParam == |Parameters(src)|
  {
    MappingsCoherent();
    RunClassesCounter(src, Mappings, State(map[], 0, []), src.keys);
  }

  /** The lines printed: one per class, in document order; a warning names a
      class exactly when it has no attribute table, and the skip notice
      appears exactly when the document has a description class. */
  lemma ConversionDiagnostics(src: Source, classname: string)
    requires WellFormed(src) && Conversion(src).Ok?
    ensures Conversion(src).value.diags == Printed(Mappings, [], src.keys)
    ensures NoMapping(classname) in Conversion(src).value.diags
        <==> classname in src.items && classname != DescriptionClass && DestClass(Mappings, classname) !in AttributeMapping
    ensures SkippedDescription in Conversion(src).value.diags <==> DescriptionClass in src.items
    ensures forall dg | dg in Conversion(src).value.diags :: dg.NoMapping? || dg.SkippedDescription?
  {
    MappingsCoherent();
    RunClassesPrints(src, Mappings, State(map[], 0, []), src.keys);
    PrintedLines(Mappings, [], src.keys, classname);
  }

  /** Index of a class in the document's class order. */
  lemma IndexOf(src: Source, c: string) returns (i: nat)
    requires WellFormed(src) && c in src.items
    ensures i < |src.keys| && src.keys[i] == c
    ensures forall j | 0 <= j < |src.keys| && j != i :: src.keys[j] != c
  {
    i :| 0 <= i < |src.keys| && src.keys[i] == c;
  }

  /** A class without an attribute table, other than the description class,
      is copied into the destination document unchanged under its own name. */
  lemma UnmappedCopiedVerbatim(src: Source, c: string)
    requires WellFormed(src) && Conversion(src).Ok?
    requires c in src.items && c != DescriptionClass && DestClass(Mappings, c) !in AttributeMapping
    ensures c in Conversion(src).value.graph
    ensures Conversion(src).value.graph[c] == Verbatim(src.items[c])
  {
    MappingsCoherent();
    CoherentFacts(Mappings, c);
    var i := IndexOf(src, c);
    var before, after := SplitAt(src, Mappings, i);
    var rest := src.keys[i + 1..];
    forall c' | c' in rest ensures DestClass(Mappings, c') != c {
      CoherentFacts(Mappings, c');
      var j :| 0 <= j < |rest| && rest[j] == c';
      assert src.keys[i + 1 + j] == c';
    }
    RunClassesKeepsBucket(src, Mappings, after, rest, c);
  }

  /** An instance of a class with an attribute table ends up renamed and
      annotated (a parameter: merged with its description) in the bucket of
      its destination class, unless a later class writes the same id into the
      same bucket or the id could collide with a synthesised link. */
  lemma MappedInstanceConverted(src: Source, i: nat, x: string)
    requires WellFormed(src) && Conversion(src).Ok? && i < |src.keys|
    requires DestClass(Mappings, src.keys[i]) in AttributeMapping && x in src.items[src.keys[i]].items
    requires forall j | i < j < |src.keys| && DestClass(Mappings, src.keys[j]) == DestClass(Mappings, src.keys[i]) ::
               x !in src.items[src.keys[j]].items
    requires DestClass(Mappings, src.keys[i]) == UsedClass ==> !IsSynthId(x)
    ensures src.keys[i] == ParameterClass ==> Resolvable(src, src.items[src.keys[i]].items[x])
    ensures Has(Conversion(src).value.graph, DestClass(Mappings, src.keys[i]), x)
    ensures Conversion(src).value.graph[DestClass(Mappings, src.keys[i])][x]
         == Converted(src, src.keys[i], TargetOf(Mappings, src.keys[i]), src.items[src.keys[i]].items[x])
  {
    MappingsCoherent();
    RunConverts(src, Mappings, i, x);
  }

  /** The `k`-th parameter in document order is linked to the activity it
      names under the blank-node id `_:p<k>`, provided no class landing in
      `used` brings ids of that form. */
  lemma UsedLinks(src: Source, k: nat)
    requires WellFormed(src) && Conversion(src).Ok? && k < |Parameters(src)|
    requires forall c, y | c in src.items && DestClass(Mappings, c) == UsedClass && y in src.items[c].items :: !IsSynthId(y)
    ensures LinksAt(Conversion(src).value.graph, SynthId(k),
                    src.items[ParameterClass].items[Parameters(src)[k]], Parameters(src)[k])
  {
    MappingsCoherent();
    RunLinks(src, Mappings, k);
  }

  /** Nothing in the destination document is invented: every entry is an
      instance of a source class in that class's destination bucket, or one
      of the `|Parameters(src)|` synthesised links. */
  lemma InstancesFromSource(src: Source)
    requires WellFormed(src) && Conversion(src).Ok?
    ensures forall d, y | Has(Conversion(src).value.graph, d, y) ::
              Sourced(src, Mappings, src.keys, d, y) || (d == UsedClass && y in SynthIds(0, |Parameters(src)|))
  {
    MappingsCoherent();
    forall d, y | Has(Conversion(src).value.graph, d, y)
      ensures Sourced(src, Mappings, src.keys, d, y) || (d == UsedClass && y in SynthIds(0, |Parameters(src)|))
    {
      RunSourced(src, Mappings, d, y);
    }
  }

  /** A merged parameter has the keys of the annotated parameter and the
      renamed names of every description attribute but the description's
      own id. */
  lemma MergedParameterKeys(src: Source, t: Target, attrs: Dict<Value>)
    requires WellFormed(src) && ValidDict(attrs) && Resolvable(src, attrs)
    ensures MergedParameter(src, t, attrs).Keys
         == Annotated(t, attrs).Keys
            + (set n | n in DescriptionOf(src, attrs).items && n != IdKey :: Rename(t.table, n))
  {
    var desc := DescriptionOf(src, attrs);
    RenameIntoKeys(Annotated(t, attrs), t.table, Except(desc.keys, IdKey), desc.items);
    assert (set n | n in Except(desc.keys, IdKey) :: Rename(t.table, n))
        == (set n | n in desc.items && n != IdKey :: Rename(t.table, n));
  }

  /** A description attribute whose W3C name no other description attribute
      shares overrides whatever the parameter itself had under that name. */
  lemma MergedDescriptionWins(src: Source, t: Target, attrs: Dict<Value>, n: string)
    requires WellFormed(src) && ValidDict(attrs) && Resolvable(src, attrs)
    requires n in DescriptionOf(src, attrs).items && n != IdKey
    requires forall m | m in DescriptionOf(src, attrs).items && m != IdKey && m != n :: Rename(t.table, m) != Rename(t.table, n)
    ensures Rename(t.table, n) in MergedParameter(src, t, attrs)
    ensures MergedParameter(src, t, attrs)[Rename(t.table, n)] == DescriptionOf(src, attrs).items[n]
  {
    var desc := DescriptionOf(src, attrs);
    var names := Except(desc.keys, IdKey);
    ExceptDistinct(desc.keys, IdKey);
    var j :| 0 <= j < |names| && names[j] == n;
    forall l | j < l < |names| ensures Rename(t.table, names[l]) != Rename(t.table, names[j]) {
      assert names[l] in names;
    }
    RenameIntoLastWins(Annotated(t, attrs), t.table, names, desc.items, j);
  }

  /** An attribute of the annotated parameter that no description attribute
      is renamed onto keeps its value. */
  lemma MergedKeepsOwn(src: Source, t: Target, attrs: Dict<Value>, k: string)
    requires WellFormed(src) && ValidDict(attrs) && Resolvable(src, attrs)
    requires k in Annotated(t, attrs)
    requires forall n | n in DescriptionOf(src, attrs).items && n != IdKey :: Rename(t.table, n) != k
    ensures k in MergedParameter(src, t, attrs)
    ensures MergedParameter(src, t, attrs)[k] == Annotated(t, attrs)[k]
  {
    var desc := DescriptionOf(src, attrs);
    var names := Except(desc.keys, IdKey);
    forall l | 0 <= l < |names| ensures Rename(t.table, names[l]) != k {
      assert names[l] in names;
    }
    RenameIntoKeeps(Annotated(t, attrs), t.table, names, desc.items, k);
  }
}
