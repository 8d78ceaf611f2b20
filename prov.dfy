/** Values, documents and diagnostics of a PROV-JSON conversion run. */
module Prov {

  datatype Option<T> = None | Some(value: T)

  datatype Result<T, E> = Ok(value: T) | Err(error: E)

  /** An attribute value. Strings matter to the converter (they are used as
      references and as injected annotations); numbers, booleans, null and
      nested JSON structures are never inspected, so they are opaque tokens. */
  datatype Value = Text(s: string) | Other(token: nat)

  /** A JSON object as it is once loaded: its keys in document order and its entries. */
  datatype Dict<T> = Dict(keys: seq<string>, items: map<string, T>)

  predicate Distinct(s: seq<string>) {
    forall i, j | 0 <= i < j < |s| :: s[i] != s[j]
  }

  /** The key order lists every entry exactly once. */
  predicate ValidDict<T>(d: Dict<T>) {
    && Distinct(d.keys)
    && (forall k | k in d.items :: k in d.keys)
    && (forall k | k in d.keys :: k in d.items)
  }

  /** A source document: class name -> instance id -> attribute name -> value. */
  type Source = Dict<Dict<Dict<Value>>>

  predicate WellFormed(src: Source) {
    && ValidDict(src)
    && (forall c | c in src.items :: ValidDict(src.items[c]))
    && (forall c, x | c in src.items && x in src.items[c].items :: ValidDict(src.items[c].items[x]))
  }

  /** The destination document; it is written with sorted keys, so it is a plain map. */
  type Instance = map<string, Value>
  type Bucket = map<string, Instance>
  type Graph = map<string, Bucket>

  /** The destination document holds an instance `y` of class `d`. */
  predicate Has(g: Graph, d: string, y: string) {
    d in g && y in g[d]
  }

  /** One line the converter reports while it runs. */
  datatype Diagnostic =
    | NoMapping(classname: string)  // a class copied verbatim because no attribute table exists for it
    | SkippedDescription            // the description class, left out because parameters absorb it

  /** Stores `inst` as instance `x` of class `d`, creating the class bucket when it is missing. */
  function Put(g: Graph, d: string, x: string, inst: Instance): Graph {
    g[d := (if d in g then g[d] else map[])[x := inst]]
  }

  /** What `Put` changes in the document, and what it leaves alone. */
  lemma PutFacts(g: Graph, d: string, x: string, inst: Instance)
    ensures Put(g, d, x, inst).Keys == g.Keys + {d}
    ensures Has(Put(g, d, x, inst), d, x) && Put(g, d, x, inst)[d][x] == inst
    ensures forall e, y | Has(Put(g, d, x, inst), e, y) :: Has(g, e, y) || (e == d && y == x)
    ensures forall e, y | Has(g, e, y) && !(e == d && y == x) ::
              Has(Put(g, d, x, inst), e, y) && Put(g, d, x, inst)[e][y] == g[e][y]
    ensures forall e | e in g && e != d :: Put(g, d, x, inst)[e] == g[e]
  {
  }

  /** Writing the same instance twice keeps only the second write. */
  lemma PutTwice(g: Graph, d: string, x: string, a: Instance, b: Instance)
    ensures Put(Put(g, d, x, a), d, x, b) == Put(g, d, x, b)
  {
    var bucket := if d in g then g[d] else map[];
    assert bucket[x := a][x := b] == bucket[x := b];
    assert g[d := bucket[x := a]][d := bucket[x := b]] == g[d := bucket[x := b]];
  }

  /** A source class bucket copied unchanged into the destination document. */
  function Verbatim(b: Dict<Dict<Value>>): Bucket {
    map x | x in b.items :: b.items[x].items
  }
}
