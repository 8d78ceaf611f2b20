/** Attribute renaming and annotation injection, the per-instance steps that
    both revisions of the converter perform in the same way. */
module Mapping {
  import opened Prov

  /** One row of a class-mapping table: the destination class and the
      annotation values injected into every instance of the source class. */
  datatype ClassRule = ClassRule(w3cClass: string, votype: Option<string>, typ: Option<string>)

  /** The destination name of one attribute: the table's entry, else the name itself. */
  function Rename(table: map<string, string>, name: string): string {
    if name in table then table[name] else name
  }

  /** Writes the attributes `names`, in order, into `acc` under their renamed
      names, each with its value from `vals` untouched. */
  function RenameInto(acc: Instance, table: map<string, string>, names: seq<string>, vals: map<string, Value>): Instance
    requires forall n | n in names :: n in vals
    decreases |names|
  {
    if names == [] then acc
    else RenameInto(acc[Rename(table, names[0]) := vals[names[0]]], table, names[1..], vals)
  }

  /** A source instance with every attribute renamed through `table`. */
  function Renamed(table: map<string, string>, attrs: Dict<Value>): Instance
    requires ValidDict(attrs)
  {
    RenameInto(map[], table, attrs.keys, attrs.items)
  }

  /** `names` without any occurrence of `drop`, order kept. */
  function Except(names: seq<string>, drop: string): (r: seq<string>)
    ensures forall n :: n in r <==> n in names && n != drop
    ensures |r| <= |names|
  {
    if names == [] then []
    else if names[0] == drop then Except(names[1..], drop)
    else [names[0]] + Except(names[1..], drop)
  }

  /** Injects the rule's annotations after renaming, overwriting any attribute
      already present under the same key. */
  function Annotate(inst: Instance, rule: ClassRule, votypeKey: string, typeKey: string): Instance {
    var withVotype := if rule.votype.Some? then inst[votypeKey := Text(rule.votype.value)] else inst;
    if rule.typ.Some? then withVotype[typeKey := Text(rule.typ.value)] else withVotype
  }

  /** Dropping a name keeps the remaining names distinct. */
  lemma {:induction false} ExceptDistinct(names: seq<string>, drop: string)
    requires Distinct(names)
    ensures Distinct(Except(names, drop))
    decreases |names|
  {
    if names != [] {
      assert Distinct(names[1..]) by {
        forall i, j | 0 <= i < j < |names[1..]| ensures names[1..][i] != names[1..][j] {
          assert names[1..][i] == names[i + 1] && names[1..][j] == names[j + 1];
        }
      }
      ExceptDistinct(names[1..], drop);
      assert names[0] !in names[1..] by {
        forall j | 0 <= j < |names[1..]| ensures names[1..][j] != names[0] {
          assert names[1..][j] == names[j + 1];
        }
      }
    }
  }

  /** Annotations add their keys, win over a renamed attribute of the same
      name, and leave every other attribute as it was. */
  lemma AnnotateOverwrites(inst: Instance, rule: ClassRule, votypeKey: string, typeKey: string)
    requires votypeKey != typeKey
    ensures Annotate(inst, rule, votypeKey, typeKey).Keys
         == inst.Keys + (if rule.votype.Some? then {votypeKey} else {}) + (if rule.typ.Some? then {typeKey} else {})
    ensures rule.votype.Some? ==> Annotate(inst, rule, votypeKey, typeKey)[votypeKey] == Text(rule.votype.value)
    ensures rule.typ.Some? ==> Annotate(inst, rule, votypeKey, typeKey)[typeKey] == Text(rule.typ.value)
    ensures forall k | k in inst && !(k == votypeKey && rule.votype.Some?) && !(k == typeKey && rule.typ.Some?) ::
              Annotate(inst, rule, votypeKey, typeKey)[k] == inst[k]
  {
  }

  /** Renaming neither drops an attribute nor invents one: the keys written are
      exactly the renamed source names, beside what was there before. */
  lemma {:induction false} RenameIntoKeys(acc: Instance, table: map<string, string>, names: seq<string>, vals: map<string, Value>)
    requires forall n | n in names :: n in vals
    ensures RenameInto(acc, table, names, vals).Keys == acc.Keys + (set n | n in names :: Rename(table, n))
    decreases |names|
  {
    if names != [] {
      var acc' := acc[Rename(table, names[0]) := vals[names[0]]];
      RenameIntoKeys(acc', table, names[1..], vals);
      assert forall n :: n in names <==> n == names[0] || n in names[1..];
    }
  }

  /** An entry that no source name is renamed to keeps its value. */
  lemma {:induction false} RenameIntoKeeps(acc: Instance, table: map<string, string>, names: seq<string>, vals: map<string, Value>, k: string)
    requires forall n | n in names :: n in vals
    requires k in acc
    requires forall l | 0 <= l < |names| :: Rename(table, names[l]) != k
    ensures k in RenameInto(acc, table, names, vals)
    ensures RenameInto(acc, table, names, vals)[k] == acc[k]
    decreases |names|
  {
    if names != [] {
      var acc' := acc[Rename(table, names[0]) := vals[names[0]]];
      assert Rename(table, names[0]) != k;
      forall l | 0 <= l < |names[1..]| ensures Rename(table, names[1..][l]) != k {
        assert names[1..][l] == names[l + 1];
      }
      RenameIntoKeeps(acc', table, names[1..], vals, k);
    }
  }

  /** The value stored under a destination name is that of the last source
      attribute renamed to it, unchanged. */
  lemma {:induction false} RenameIntoLastWins(acc: Instance, table: map<string, string>, names: seq<string>, vals: map<string, Value>, j: nat)
    requires forall n | n in names :: n in vals
    requires j < |names|
    requires forall l | j < l < |names| :: Rename(table, names[l]) != Rename(table, names[j])
    ensures Rename(table, names[j]) in RenameInto(acc, table, names, vals)
    ensures RenameInto(acc, table, names, vals)[Rename(table, names[j])] == vals[names[j]]
    decreases |names|
  {
    var acc' := acc[Rename(table, names[0]) := vals[names[0]]];
    if j == 0 {
      forall l | 0 <= l < |names[1..]| ensures Rename(table, names[1..][l]) != Rename(table, names[0]) {
        assert names[1..][l] == names[l + 1];
      }
      RenameIntoKeeps(acc', table, names[1..], vals, Rename(table, names[0]));
    } else {
      forall l | j - 1 < l < |names[1..]| ensures Rename(table, names[1..][l]) != Rename(table, names[1..][j - 1]) {
        assert names[1..][l] == names[l + 1];
      }
      RenameIntoLastWins(acc', table, names[1..], vals, j - 1);
    }
  }

  /** Every source attribute appears in the renamed instance, under the table's
      name when listed and under its own name otherwise, and nothing else does. */
  lemma RenamedKeys(table: map<string, string>, attrs: Dict<Value>)
    requires ValidDict(attrs)
    ensures Renamed(table, attrs).Keys == set n | n in attrs.items :: Rename(table, n)
  {
    RenameIntoKeys(map[], table, attrs.keys, attrs.items);
  }

  /** When no other attribute of the instance is renamed onto the same name, an
      attribute's value reaches the destination unchanged. */
  lemma RenamedValue(table: map<string, string>, attrs: Dict<Value>, n: string)
    requires ValidDict(attrs)
    requires n in attrs.items
    requires forall m | m in attrs.items && m != n :: Rename(table, m) != Rename(table, n)
    ensures Rename(table, n) in Renamed(table, attrs)
    ensures Renamed(table, attrs)[Rename(table, n)] == attrs.items[n]
  {
    var j :| 0 <= j < |attrs.keys| && attrs.keys[j] == n;
    forall l | j < l < |attrs.keys| ensures Rename(table, attrs.keys[l]) != Rename(table, attrs.keys[j]) {
      assert attrs.keys[l] in attrs.items;
    }
    RenameIntoLastWins(map[], table, attrs.keys, attrs.items, j);
  }

  /** An instance none of whose names the table lists is copied as it is. */
  lemma RenamedIdentity(table: map<string, string>, attrs: Dict<Value>)
    requires ValidDict(attrs)
    requires forall n | n in attrs.items :: n !in table
    ensures Renamed(table, attrs) == attrs.items
  {
    RenamedKeys(table, attrs);
    assert Renamed(table, attrs).Keys == attrs.items.Keys by {
      forall n | n in attrs.items ensures Rename(table, n) == n { }
    }
    forall n | n in attrs.items ensures Renamed(table, attrs)[n] == attrs.items[n] {
      RenamedValue(table, attrs, n);
    }
  }

  /** The loop that renames one instance's attributes, one assignment per source attribute. */
  method RenameAttributes(table: map<string, string>, attrs: Dict<Value>) returns (inst: Instance)
    requires ValidDict(attrs)
    ensures inst == Renamed(table, attrs)
  {
    inst := map[];
    for i := 0 to |attrs.keys|
      invariant RenameInto(inst, table, attrs.keys[i..], attrs.items) == Renamed(table, attrs)
    {
      var voName := attrs.keys[i];
      var w3cName := if voName in table then table[voName] else voName;
      assert attrs.keys[i..][1..] == attrs.keys[i + 1..];
      inst := inst[w3cName := attrs.items[voName]];
    }
  }

  /** The body of the instance loop shared by both revisions: rename every
      attribute, then inject the rule's annotations. */
  method ConvertAttributes(table: map<string, string>, attrs: Dict<Value>, rule: ClassRule, votypeKey: string, typeKey: string)
    returns (inst: Instance)
    requires ValidDict(attrs)
    ensures inst == Annotate(Renamed(table, attrs), rule, votypeKey, typeKey)
  {
    inst := RenameAttributes(table, attrs);
    if rule.votype.Some? {
      inst := inst[votypeKey := Text(rule.votype.value)];
    }
    if rule.typ.Some? {
      inst := inst[typeKey := Text(rule.typ.value)];
    }
  }

  /** The loop that folds a description into an instance, skipping its `skip` attribute. */
  method MergeAttributes(inst0: Instance, table: map<string, string>, desc: Dict<Value>, skip: string) returns (inst: Instance)
    requires ValidDict(desc)
    ensures inst == RenameInto(inst0, table, Except(desc.keys, skip), desc.items)
  {
    inst := inst0;
    for i := 0 to |desc.keys|
      invariant RenameInto(inst, table, Except(desc.keys[i..], skip), desc.items)
             == RenameInto(inst0, table, Except(desc.keys, skip), desc.items)
    {
      var voName := desc.keys[i];
      assert desc.keys[i..][1..] == desc.keys[i + 1..];
      if voName != skip {
        var w3cName := if voName in table then table[voName] else voName;
        inst := inst[w3cName := desc.items[voName]];
      }
    }
  }
}
