/** The null-handling functions of src/12-nullables.ts. */
module Nullables {
  import opened Wrappers

  /** A value of type `T | null | undefined`. */
  datatype Nullable<T> = Undefined | Null | Value(value: T)

  /** The length of a string, and 0 for `null` or `undefined`. */
  function LenOrZero(value: Nullable<string>): (n: nat)
    ensures value.Value? ==> n == |value.value|
    ensures !value.Value? ==> n == 0
  {
    match value
    case Value(s) => |s|
    case _ => 0
  }

  /** `Hello ${name ?? "there"}!`: only a missing name falls back, so the
      empty name is greeted as given. */
  function Greet(name: Option<string>): (r: string)
    ensures name.None? ==> r == "Hello there!"
    ensures name.Some? ==> r == "Hello " + name.value + "!"
  {
    "Hello " + (match name case Some(n) => n case None => "there") + "!"
  }

  /** `Array.prototype.find`: the first element that satisfies `p`, if any. */
  function Find<T>(xs: seq<T>, p: T -> bool): (r: Option<T>)
    ensures r.Some? <==> exists i :: 0 <= i < |xs| && p(xs[i])
    ensures r.Some? ==> exists i :: 0 <= i < |xs| && xs[i] == r.value && p(xs[i]) &&
                          forall j :: 0 <= j < i ==> !p(xs[j])
  {
    if xs == [] then None
    else if p(xs[0]) then Some(xs[0])
    else
      var r := Find(xs[1..], p);
      assert forall i :: 0 < i < |xs| ==> xs[i] == xs[1..][i - 1];
      r
  }

  /** `ids.find(x => x === id)`: `id` itself when it occurs, else `undefined`. */
  function FindById(ids: seq<int>, id: int): (r: Option<int>)
    ensures r.Some? <==> id in ids
    ensures r.Some? ==> r.value == id
  {
    Find(ids, x => x == id)
  }

  /** A node whose parent may be missing, `null` or another node. */
  datatype Node = Node(id: string, parent: Nullable<Node>)

  /** `n.parent?.id`: the parent's id, `undefined` when there is no parent. */
  function GetParentId(n: Node): (r: Option<string>)
    ensures r.Some? <==> n.parent.Value?
    ensures r.Some? ==> r.value == n.parent.value.id
  {
    match n.parent
    case Value(p) => Some(p.id)
    case _ => None
  }

  /** The values the comments next to the calls give. */
  lemma LenOrZeroExamples()
    ensures LenOrZero(Undefined) == 0 && LenOrZero(Null) == 0 && LenOrZero(Value("TS")) == 2
  {
  }

  lemma GreetExamples()
    ensures Greet(None) == "Hello there!" && Greet(Some("Alice")) == "Hello Alice!"
    ensures Greet(Some("")) == "Hello !"
  {
  }

  lemma FindByIdExamples()
    ensures FindById([1, 2, 3], 2) == Some(2) && FindById([1, 2, 3], 4) == None
  {
  }

  lemma GetParentIdExamples()
    ensures var root := Node("root", Null);
            GetParentId(Node("child", Value(root))) == Some("root") && GetParentId(root) == None
    ensures GetParentId(Node("orphan", Undefined)) == None
  {
  }
}
