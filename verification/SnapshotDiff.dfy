/** Comparing two control-room snapshots: a structural diff that says nothing exactly when there is no difference. */
module SnapshotDiff {

  /** JSON as the two snapshots hold it; numbers of different kinds are different values. */
  datatype Json =
    | Null
    | Bool(flag: bool)
    | Integer(int_: int)
    | Float(real_: real)
    | Text(text: string)
    | List(items: seq<Json>)
    | Object(fields: map<string, Json>)

  datatype Step = Key(name: string) | Index(at: nat)

  datatype Line = OtherKind | OnlyIn(first: bool) | OtherLength | OtherValue

  datatype Problem = Problem(path: seq<Step>, line: Line)

  predicate SameKind(a: Json, b: Json) {
    match a
    case Null => b.Null?
    case Bool(_) => b.Bool?
    case Integer(_) => b.Integer?
    case Float(_) => b.Float?
    case Text(_) => b.Text?
    case List(_) => b.List?
    case Object(_) => b.Object?
  }

  /** What stands at a path, if the document has that path. */
  predicate Has(a: Json, path: seq<Step>)
    decreases path
  {
    path == []
    || (path[0].Key? && a.Object? && path[0].name in a.fields && Has(a.fields[path[0].name], path[1..]))
    || (path[0].Index? && a.List? && path[0].at < |a.items| && Has(a.items[path[0].at], path[1..]))
  }

  function At(a: Json, path: seq<Step>): Json
    requires Has(a, path)
    decreases path
  {
    if path == [] then a
    else if path[0].Key? then At(a.fields[path[0].name], path[1..])
    else At(a.items[path[0].at], path[1..])
  }

  /** The problem is there: at its path the two documents disagree in the way the line says. */
  predicate Real(a: Json, b: Json, p: Problem) {
    match p.line
    case OnlyIn(first) => if first then Has(a, p.path) && !Has(b, p.path) else Has(b, p.path) && !Has(a, p.path)
    case OtherKind => Has(a, p.path) && Has(b, p.path) && !SameKind(At(a, p.path), At(b, p.path))
    case OtherLength =>
      Has(a, p.path) && Has(b, p.path) && At(a, p.path).List? && At(b, p.path).List?
      && |At(a, p.path).items| != |At(b, p.path).items|
    case OtherValue => Has(a, p.path) && Has(b, p.path) && At(a, p.path) != At(b, p.path)
  }

  function Under(step: Step, p: Problem): Problem { Problem([step] + p.path, p.line) }

  lemma RealUnderKey(a: Json, b: Json, key: string, p: Problem)
    requires a.Object? && b.Object? && key in a.fields && key in b.fields && Real(a.fields[key], b.fields[key], p)
    ensures Real(a, b, Under(Key(key), p))
  {
    var path := [Key(key)] + p.path;
    assert path[1..] == p.path;
  }

  lemma RealUnderIndex(a: Json, b: Json, i: nat, p: Problem)
    requires a.List? && b.List? && i < |a.items| && i < |b.items| && Real(a.items[i], b.items[i], p)
    ensures Real(a, b, Under(Index(i), p))
  {
    var path := [Index(i)] + p.path;
    assert path[1..] == p.path;
  }

  lemma MissingIsReal(a: Json, b: Json, key: string)
    requires a.Object? && b.Object?
    ensures key in a.fields && key !in b.fields ==> Real(a, b, Problem([Key(key)], OnlyIn(true)))
    ensures key !in a.fields && key in b.fields ==> Real(a, b, Problem([Key(key)], OnlyIn(false)))
  {
    var path: seq<Step> := [Key(key)];
    assert path[1..] == [];
  }

  /** No line exactly when the documents are equal, and every line is a difference that is there. */
  method Walk(a: Json, b: Json) returns (out: seq<Problem>)
    ensures out == [] <==> a == b
    ensures forall p :: p in out ==> Real(a, b, p)
    decreases a
  {
    out := [];
    if !SameKind(a, b) {
      out := [Problem([], OtherKind)];
    } else if a.Object? {
      out := WalkFields(a, b);
    } else if a.List? {
      out := WalkItems(a, b);
    } else if a != b {
      out := [Problem([], OtherValue)];
    }
  }

  method WalkFields(a: Json, b: Json) returns (out: seq<Problem>)
    requires a.Object? && b.Object?
    ensures out == [] <==> a == b
    ensures forall p :: p in out ==> Real(a, b, p)
    decreases a, 0
  {
    out := [];
    var keys := a.fields.Keys + b.fields.Keys;
    while keys != {}
      invariant keys <= a.fields.Keys + b.fields.Keys
      invariant forall p :: p in out ==> Real(a, b, p)
      invariant out == [] <==> forall key :: key in a.fields.Keys + b.fields.Keys - keys ==>
                                 key in a.fields && key in b.fields && a.fields[key] == b.fields[key]
      decreases |keys|
    {
      var key :| key in keys;
      keys := keys - {key};
      MissingIsReal(a, b, key);
      if key !in a.fields {
        out := out + [Problem([Key(key)], OnlyIn(false))];
      } else if key !in b.fields {
        out := out + [Problem([Key(key)], OnlyIn(true))];
      } else {
        var inner := Walk(a.fields[key], b.fields[key]);
        forall p | p in inner ensures Real(a, b, Under(Key(key), p)) { RealUnderKey(a, b, key, p); }
        out := out + seq(|inner|, i requires 0 <= i < |inner| => Under(Key(key), inner[i]));
      }
    }
    if out == [] { assert a.fields == b.fields; }
  }

  method WalkItems(a: Json, b: Json) returns (out: seq<Problem>)
    requires a.List? && b.List?
    ensures out == [] <==> a == b
    ensures forall p :: p in out ==> Real(a, b, p)
    decreases a, 0
  {
    out := if |a.items| != |b.items| then [Problem([], OtherLength)] else [];
    var shared := if |a.items| <= |b.items| then |a.items| else |b.items|;
    for i := 0 to shared
      invariant forall p :: p in out ==> Real(a, b, p)
      invariant out == [] <==> |a.items| == |b.items| && forall k :: 0 <= k < i ==> a.items[k] == b.items[k]
    {
      var inner := Walk(a.items[i], b.items[i]);
      forall p | p in inner ensures Real(a, b, Under(Index(i), p)) { RealUnderIndex(a, b, i, p); }
      out := out + seq(|inner|, k requires 0 <= k < |inner| => Under(Index(i), inner[k]));
    }
    if out == [] { assert a.items == b.items; }
  }
}
