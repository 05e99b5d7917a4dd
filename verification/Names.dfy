/**
 The code-point order Python uses to compare strings and tuples of strings,
 and the sorted list of a set of names.
 */
module Names {

  /** `a <= b` for two strings compared code point by code point. */
  predicate StringLe(a: string, b: string) {
    if a == [] then true
    else if b == [] then false
    else if a[0] == b[0] then StringLe(a[1..], b[1..])
    else a[0] < b[0]
  }

  lemma {:induction false} StringLeReflexive(a: string)
    ensures StringLe(a, a)
  {
    if a != [] { StringLeReflexive(a[1..]); }
  }

  lemma {:induction false} StringLeTotal(a: string, b: string)
    ensures StringLe(a, b) || StringLe(b, a)
  {
    if a != [] && b != [] && a[0] == b[0] { StringLeTotal(a[1..], b[1..]); }
  }

  lemma {:induction false} StringLeAntisymmetric(a: string, b: string)
    requires StringLe(a, b) && StringLe(b, a)
    ensures a == b
  {
    if a != [] {
      StringLeAntisymmetric(a[1..], b[1..]);
      assert a == [a[0]] + a[1..];
      assert b == [b[0]] + b[1..];
    }
  }

  lemma {:induction false} StringLeTransitive(a: string, b: string, c: string)
    requires StringLe(a, b) && StringLe(b, c)
    ensures StringLe(a, c)
  {
    if a != [] && a[0] == b[0] && b[0] == c[0] { StringLeTransitive(a[1..], b[1..], c[1..]); }
  }

  /** A list with no repetition, in increasing order. */
  predicate Ascending(names: seq<string>) {
    forall i, j :: 0 <= i < j < |names| ==> StringLe(names[i], names[j]) && names[i] != names[j]
  }

  /** Where a new name belongs in an ascending list. */
  function Position(names: seq<string>, name: string): (k: nat)
    ensures k <= |names|
    ensures forall i :: 0 <= i < k ==> StringLe(names[i], name)
    ensures k < |names| ==> !StringLe(names[k], name)
  {
    if names == [] || !StringLe(names[0], name) then 0
    else
      var k := Position(names[1..], name);
      assert forall i :: 1 <= i < k + 1 ==> names[i] == names[1..][i - 1];
      k + 1
  }

  lemma InsertKeepsAscending(names: seq<string>, name: string)
    requires Ascending(names) && name !in names
    ensures Ascending(names[..Position(names, name)] + [name] + names[Position(names, name)..])
  {
    var k := Position(names, name);
    var result := names[..k] + [name] + names[k..];
    forall i, j | 0 <= i < j < |result|
      ensures StringLe(result[i], result[j]) && result[i] != result[j]
    {
      if k < |names| {
        StringLeTotal(names[k], name);
        if i == k {
          StringLeTransitive(name, names[k], names[j - 1]) by {
            if k < j - 1 { } else { StringLeReflexive(names[k]); }
          }
        }
      }
    }
  }

  /** `sorted(names)` for a set of names. */
  method SortNames(names: set<string>) returns (sorted: seq<string>)
    ensures Ascending(sorted)
    ensures forall x :: x in sorted <==> x in names
  {
    sorted := [];
    var rest := names;
    while rest != {}
      invariant Ascending(sorted)
      invariant rest <= names
      invariant forall x :: x in sorted <==> x in names && x !in rest
      decreases rest
    {
      var name :| name in rest;
      var k := Position(sorted, name);
      InsertKeepsAscending(sorted, name);
      ghost var before := sorted;
      assert before == before[..k] + before[k..];
      sorted := sorted[..k] + [name] + sorted[k..];
      assert forall x :: x in sorted <==> x == name || x in before[..k] + before[k..];
      rest := rest - {name};
    }
  }
}
