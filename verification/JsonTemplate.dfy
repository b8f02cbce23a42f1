/** Matching a message against a template of allowed structures (contracts/satoshi-bridge/src/json_utils.rs). */
module JsonTemplate {
  import opened Wrappers

  datatype Value =
    | Null
    | Bool(bool)
    | Number(int)
    | String(string)
    | Array(items: seq<Value>)
    | Object(fields: seq<Field>)

  datatype Field = Field(key: string, value: Value)

  predicate DistinctKeys(fields: seq<Field>) {
    forall i, j :: 0 <= i < j < |fields| ==> fields[i].key != fields[j].key
  }

  /** As the parser builds it: no object has a key twice. */
  ghost predicate WellFormed(v: Value) {
    match v
    case Array(items) => forall i :: 0 <= i < |items| ==> WellFormed(items[i])
    case Object(fields) => DistinctKeys(fields) && forall i :: 0 <= i < |fields| ==> WellFormed(fields[i].value)
    case _ => true
  }

  /**
   * What the match means: every field of an object is one the template has, of a matching value; every item
   * of an array matches one of the template's items, and only an empty array matches an empty one; other
   * values match by kind, and a null template matches anything.
   */
  ghost predicate Matches(template: Value, input: Value)
    decreases input, 0
  {
    match template
    case Null => true
    case Bool(_) => input.Bool?
    case Number(_) => input.Number?
    case String(_) => input.String?
    case Array(variants) =>
      input.Array? && forall i :: 0 <= i < |input.items| ==> MatchesOne(variants, input.items[i])
    case Object(allowed) =>
      input.Object? && forall i :: 0 <= i < |input.fields| ==> IsAllowed(allowed, input.fields[i])
  }

  ghost predicate MatchesOne(variants: seq<Value>, item: Value)
    decreases item, 1
  {
    exists j :: 0 <= j < |variants| && Matches(variants[j], item)
  }

  ghost predicate IsAllowed(allowed: seq<Field>, field: Field)
    decreases field
  {
    exists j :: 0 <= j < |allowed| && allowed[j].key == field.key && Matches(allowed[j].value, field.value)
  }

  // ----- the program -----

  method Get(fields: seq<Field>, key: string) returns (r: Option<Value>)
    ensures r.None? ==> forall i :: 0 <= i < |fields| ==> fields[i].key != key
    ensures r.Some? ==> exists i :: 0 <= i < |fields| && fields[i] == Field(key, r.value)
  {
    var i := 0;
    while i < |fields|
      invariant 0 <= i <= |fields|
      invariant forall k :: 0 <= k < i ==> fields[k].key != key
    {
      if fields[i].key == key {
        assert fields[i] == Field(key, fields[i].value);
        return Some(fields[i].value);
      }
      i := i + 1;
    }
    r := None;
  }

  method IsStructureEqual(template: Value, input: Value) returns (r: bool)
    requires WellFormed(template) && WellFormed(input)
    ensures r == Matches(template, input)
    decreases template
  {
    match template {
      case Null => r := true;
      case Bool(_) => r := input.Bool?;
      case Number(_) => r := input.Number?;
      case String(_) => r := input.String?;
      case Array(variants) =>
        if !input.Array? {
          return false;
        }
        if variants == [] {
          assert input.items != [] ==> !MatchesOne(variants, input.items[0]);
          return input.items == [];
        }
        r := ItemsMatch(variants, input.items);
      case Object(allowed) =>
        if !input.Object? {
          return false;
        }
        r := FieldsMatch(allowed, input.fields);
    }
  }

  method ItemsMatch(variants: seq<Value>, items: seq<Value>) returns (r: bool)
    requires forall j :: 0 <= j < |variants| ==> WellFormed(variants[j])
    requires forall i :: 0 <= i < |items| ==> WellFormed(items[i])
    ensures r == forall i :: 0 <= i < |items| ==> MatchesOne(variants, items[i])
    decreases variants, 0
  {
    var n := 0;
    while n < |items|
      invariant 0 <= n <= |items|
      invariant forall i :: 0 <= i < n ==> MatchesOne(variants, items[i])
    {
      var matched, m := false, 0;
      while m < |variants| && !matched
        invariant 0 <= m <= |variants|
        invariant matched ==> MatchesOne(variants, items[n])
        invariant !matched ==> forall j :: 0 <= j < m ==> !Matches(variants[j], items[n])
        decreases |variants| - m, !matched
      {
        matched := IsStructureEqual(variants[m], items[n]);
        if !matched {
          m := m + 1;
        }
      }
      if !matched {
        return false;
      }
      n := n + 1;
    }
    r := true;
  }

  /** First the values of the template's fields that the input has, then the input's keys. */
  method FieldsMatch(allowed: seq<Field>, fields: seq<Field>) returns (r: bool)
    requires DistinctKeys(allowed) && forall j :: 0 <= j < |allowed| ==> WellFormed(allowed[j].value)
    requires DistinctKeys(fields) && forall i :: 0 <= i < |fields| ==> WellFormed(fields[i].value)
    ensures r == forall i :: 0 <= i < |fields| ==> IsAllowed(allowed, fields[i])
    decreases allowed, 0
  {
    var m := 0;
    while m < |allowed|
      invariant 0 <= m <= |allowed|
      invariant forall j, i :: 0 <= j < m && 0 <= i < |fields| && allowed[j].key == fields[i].key ==>
        Matches(allowed[j].value, fields[i].value)
    {
      var value := Get(fields, allowed[m].key);
      if value.Some? {
        var same := IsStructureEqual(allowed[m].value, value.value);
        if !same {
          MismatchRefutes(allowed, fields, m, value.value);
          return false;
        }
      }
      m := m + 1;
    }
    var n := 0;
    while n < |fields|
      invariant 0 <= n <= |fields|
      invariant forall i :: 0 <= i < n ==> IsAllowed(allowed, fields[i])
    {
      var value := Get(allowed, fields[n].key);
      if value.None? {
        return false;
      }
      var j :| 0 <= j < |allowed| && allowed[j] == Field(fields[n].key, value.value);
      assert Matches(allowed[j].value, fields[n].value);
      n := n + 1;
    }
    r := true;
  }

  /** With distinct keys, one mismatching value of a shared key refutes the match. */
  lemma MismatchRefutes(allowed: seq<Field>, fields: seq<Field>, m: nat, value: Value)
    requires DistinctKeys(allowed) && m < |allowed| && Field(allowed[m].key, value) in fields
    requires !Matches(allowed[m].value, value)
    ensures exists i :: 0 <= i < |fields| && !IsAllowed(allowed, fields[i])
  {
    var i :| 0 <= i < |fields| && fields[i] == Field(allowed[m].key, value);
    assert forall j :: 0 <= j < |allowed| && allowed[j].key == fields[i].key ==> j == m;
    assert !IsAllowed(allowed, fields[i]);
  }

  // ----- the relation is a preorder -----

  lemma {:induction false} Reflexive(v: Value)
    ensures Matches(v, v)
    decreases v
  {
    match v {
      case Array(items) =>
        forall i | 0 <= i < |items| ensures MatchesOne(items, items[i]) {
          Reflexive(items[i]);
        }
      case Object(fields) =>
        forall i | 0 <= i < |fields| ensures IsAllowed(fields, fields[i]) {
          Reflexive(fields[i].value);
        }
      case _ =>
    }
  }

  lemma {:induction false} Transitive(a: Value, b: Value, c: Value)
    requires Matches(a, b) && Matches(b, c)
    ensures Matches(a, c)
    decreases c
  {
    match a {
      case Array(variants) =>
        forall i | 0 <= i < |c.items| ensures MatchesOne(variants, c.items[i]) {
          assert MatchesOne(b.items, c.items[i]);
          var j :| 0 <= j < |b.items| && Matches(b.items[j], c.items[i]);
          assert MatchesOne(variants, b.items[j]);
          var k :| 0 <= k < |variants| && Matches(variants[k], b.items[j]);
          Transitive(variants[k], b.items[j], c.items[i]);
        }
      case Object(allowed) =>
        forall i | 0 <= i < |c.fields| ensures IsAllowed(allowed, c.fields[i]) {
          assert IsAllowed(b.fields, c.fields[i]);
          var j :| 0 <= j < |b.fields| && b.fields[j].key == c.fields[i].key && Matches(b.fields[j].value, c.fields[i].value);
          assert IsAllowed(allowed, b.fields[j]);
          var k :| 0 <= k < |allowed| && allowed[k].key == b.fields[j].key && Matches(allowed[k].value, b.fields[j].value);
          Transitive(allowed[k].value, b.fields[j].value, c.fields[i].value);
        }
      case _ =>
    }
  }

  // ----- what is found on a path -----

  datatype Kind = NullKind | BoolKind | NumberKind | StringKind | ArrayKind | ObjectKind

  function KindOf(v: Value): Kind {
    match v
    case Null => NullKind
    case Bool(_) => BoolKind
    case Number(_) => NumberKind
    case String(_) => StringKind
    case Array(_) => ArrayKind
    case Object(_) => ObjectKind
  }

  /** Into the field with a key, or into some item of an array. */
  datatype Step = Key(key: string) | Item

  /** A value of this kind lies at the end of the path. */
  ghost predicate Has(v: Value, path: seq<Step>, kind: Kind)
    decreases |path|
  {
    if path == [] then KindOf(v) == kind
    else match path[0]
      case Key(k) => v.Object?
        && exists i :: 0 <= i < |v.fields| && v.fields[i].key == k && Has(v.fields[i].value, path[1..], kind)
      case Item => v.Array? && exists i :: 0 <= i < |v.items| && Has(v.items[i], path[1..], kind)
  }

  /** The template has the same kind there, or it has a null on the way, under which anything may come. */
  ghost predicate Allows(template: Value, path: seq<Step>, kind: Kind)
    decreases |path|
  {
    || template.Null?
    || (if path == [] then KindOf(template) == kind
        else match path[0]
          case Key(k) => template.Object?
            && exists i :: 0 <= i < |template.fields| && template.fields[i].key == k
                 && Allows(template.fields[i].value, path[1..], kind)
          case Item =>
            (template.Array? && exists i :: 0 <= i < |template.items| && Allows(template.items[i], path[1..], kind)))
  }

  /** Whatever an accepted message contains, at any depth, the template allows there with the same kind. */
  lemma {:induction false} AcceptedPathsAreAllowed(template: Value, input: Value, path: seq<Step>, kind: Kind)
    requires Matches(template, input) && Has(input, path, kind)
    ensures Allows(template, path, kind)
    decreases |path|
  {
    if path == [] || template.Null? {
    } else {
      match path[0] {
        case Key(k) =>
          var i :| 0 <= i < |input.fields| && input.fields[i].key == k && Has(input.fields[i].value, path[1..], kind);
          assert IsAllowed(template.fields, input.fields[i]);
          var j :| 0 <= j < |template.fields| && template.fields[j].key == k
            && Matches(template.fields[j].value, input.fields[i].value);
          AcceptedPathsAreAllowed(template.fields[j].value, input.fields[i].value, path[1..], kind);
        case Item =>
          var i :| 0 <= i < |input.items| && Has(input.items[i], path[1..], kind);
          assert MatchesOne(template.items, input.items[i]);
          var j :| 0 <= j < |template.items| && Matches(template.items[j], input.items[i]);
          AcceptedPathsAreAllowed(template.items[j], input.items[i], path[1..], kind);
      }
    }
  }

  ghost predicate HasNoArrays(template: Value) {
    match template
    case Array(_) => false
    case Object(fields) => forall i :: 0 <= i < |fields| ==> HasNoArrays(fields[i].value)
    case _ => true
  }

  ghost predicate AllPathsAllowed(template: Value, input: Value) {
    forall path, kind :: Has(input, path, kind) ==> Allows(template, path, kind)
  }

  lemma {:induction false} AllowedPathsAreAccepted(template: Value, input: Value)
    requires WellFormed(template) && HasNoArrays(template) && AllPathsAllowed(template, input)
    ensures Matches(template, input)
    decreases input
  {
    assert Has(input, [], KindOf(input));
    assert Allows(template, [], KindOf(input));
    if template.Object? {
      forall i | 0 <= i < |input.fields| ensures IsAllowed(template.fields, input.fields[i]) {
        var f := input.fields[i];
        var j := FieldIsAllowed(template, input, i);
        forall path, kind | Has(f.value, path, kind) ensures Allows(template.fields[j].value, path, kind) {
          var longer := [Key(f.key)] + path;
          assert longer[1..] == path;
          assert Has(input, longer, kind);
          assert Allows(template, longer, kind);
        }
        AllowedPathsAreAccepted(template.fields[j].value, f.value);
      }
    }
  }

  lemma FieldIsAllowed(template: Value, input: Value, i: nat) returns (j: nat)
    requires AllPathsAllowed(template, input) && template.Object? && input.Object? && i < |input.fields|
    ensures j < |template.fields| && template.fields[j].key == input.fields[i].key
  {
    var f := input.fields[i];
    var path := [Key(f.key)];
    assert path[1..] == [] && Has(f.value, [], KindOf(f.value));
    assert Has(input, path, KindOf(f.value));
    assert Allows(template, path, KindOf(f.value));
    j :| 0 <= j < |template.fields| && template.fields[j].key == f.key;
  }

  /** For a template without arrays: a message is accepted exactly when everything in it is allowed where it is. */
  lemma AcceptanceByPaths(template: Value, input: Value)
    requires WellFormed(template) && HasNoArrays(template)
    ensures Matches(template, input) <==> AllPathsAllowed(template, input)
  {
    if Matches(template, input) {
      forall path, kind | Has(input, path, kind) ensures Allows(template, path, kind) {
        AcceptedPathsAreAllowed(template, input, path, kind);
      }
    } else if AllPathsAllowed(template, input) {
      AllowedPathsAreAccepted(template, input);
    }
  }

  // ----- dropping fields -----

  /** The smaller value is the larger one without some of its fields, at any depth. */
  ghost predicate Drops(larger: Value, smaller: Value)
    decreases smaller
  {
    match larger
    case Array(items) =>
      && smaller.Array? && |smaller.items| == |items|
      && forall i :: 0 <= i < |items| ==> Drops(items[i], smaller.items[i])
    case Object(fields) =>
      smaller.Object? && forall i :: 0 <= i < |smaller.fields| ==> WasThere(fields, smaller.fields[i])
    case _ => smaller == larger
  }

  ghost predicate WasThere(fields: seq<Field>, field: Field)
    decreases field
  {
    exists j :: 0 <= j < |fields| && fields[j].key == field.key && Drops(fields[j].value, field.value)
  }

  lemma {:induction false} DroppedMatchesWhole(larger: Value, smaller: Value)
    requires Drops(larger, smaller)
    ensures Matches(larger, smaller)
    decreases smaller
  {
    match larger {
      case Array(items) =>
        forall i | 0 <= i < |items| ensures MatchesOne(items, smaller.items[i]) {
          assert Drops(items[i], smaller.items[i]);
          DroppedMatchesWhole(items[i], smaller.items[i]);
        }
      case Object(fields) =>
        forall i | 0 <= i < |smaller.fields| ensures IsAllowed(fields, smaller.fields[i]) {
          assert WasThere(fields, smaller.fields[i]);
          var j :| 0 <= j < |fields| && fields[j].key == smaller.fields[i].key
            && Drops(fields[j].value, smaller.fields[i].value);
          DroppedMatchesWhole(fields[j].value, smaller.fields[i].value);
        }
      case _ =>
    }
  }

  /** Dropping fields from an accepted message, anywhere in it, gives an accepted message. */
  lemma DroppingKeepsMatch(template: Value, input: Value, smaller: Value)
    requires Matches(template, input) && Drops(input, smaller)
    ensures Matches(template, smaller)
  {
    DroppedMatchesWhole(input, smaller);
    Transitive(template, input, smaller);
  }
}
