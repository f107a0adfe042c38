/** The schema tree walked by the driver. Only the number variant is modelled
    in full; object and array schemas keep only what the driver looks at
    (the optional flag and the sub-schemas), and every other variant
    (boolean, string, reference, extensions) keeps its type tag as well. */
module Schemas {
  import opened NumberSchemas

  /** The type tags of the object and array variants. */
  const OBJECT_TYPE_ID: string := "object"
  const ARRAY_TYPE_ID: string := "array"

  datatype Schema =
    | Number(number: NumberSchema)
    | Object(optional: bool, fields: seq<Schema>)
    | Array(optional: bool, items: seq<Schema>)
    | Other(tag: string, optional: bool, subs: seq<Schema>)
  {
    /** The type tag of the schema's variant. */
    function Type(): (t: string)
      ensures Number? ==> t == NumberSchemas.TYPE_ID
      ensures Object? ==> t == OBJECT_TYPE_ID
      ensures Array? ==> t == ARRAY_TYPE_ID
    {
      match this
      case Number(n) => n.Type()
      case Object(_, _) => OBJECT_TYPE_ID
      case Array(_, _) => ARRAY_TYPE_ID
      case Other(tag, _, _) => tag
    }

    /** Whether data for this schema may be absent. */
    predicate IsOptional() {
      if Number? then number.optional else optional
    }

    /** The direct children of the schema; a number schema is a leaf. */
    function SubSchemas(): (r: seq<Schema>)
      ensures Number? ==> r == []
      ensures forall i :: 0 <= i < |r| ==> Size(r[i]) < Size(this)
    {
      match this
      case Number(_) => []
      case Object(_, fields) => SizeOfChild(this, fields); fields
      case Array(_, items) => SizeOfChild(this, items); items
      case Other(_, _, subs) => SizeOfChild(this, subs); subs
    }
  }

  /** The number of nodes in a schema tree. */
  function Size(s: Schema): (n: nat)
    ensures n >= 1
  {
    match s
    case Number(_) => 1
    case Object(_, fields) => 1 + SizeOfAll(fields)
    case Array(_, items) => 1 + SizeOfAll(items)
    case Other(_, _, subs) => 1 + SizeOfAll(subs)
  }

  /** The number of nodes in a list of schema trees. */
  function SizeOfAll(ss: seq<Schema>): (n: nat)
    ensures ss != [] ==> n >= |ss|
  {
    if ss == [] then 0 else Size(ss[0]) + SizeOfAll(ss[1..])
  }

  /** Each tree of a list is no larger than the whole list. */
  lemma {:induction false} SizeOfMember(ss: seq<Schema>, i: nat)
    requires i < |ss|
    ensures Size(ss[i]) <= SizeOfAll(ss)
  {
    if i > 0 {
      SizeOfMember(ss[1..], i - 1);
    }
  }

  /** The children of a node are strictly smaller than the node. */
  lemma SizeOfChild(s: Schema, children: seq<Schema>)
    requires !s.Number?
    requires children == (if s.Object? then s.fields else if s.Array? then s.items else s.subs)
    ensures forall i :: 0 <= i < |children| ==> Size(children[i]) < Size(s)
  {
    forall i | 0 <= i < |children| ensures Size(children[i]) < Size(s) {
      SizeOfMember(children, i);
    }
  }

  /** A node's children together hold every node of its tree but the node itself. */
  lemma SizeOfSubSchemas(s: Schema)
    ensures SizeOfAll(s.SubSchemas()) + 1 == Size(s)
  {
  }

  /** The size of a list of trees grows by each tree appended. */
  lemma {:induction false} SizeOfAllAppend(ss: seq<Schema>, s: Schema)
    ensures SizeOfAll(ss + [s]) == SizeOfAll(ss) + Size(s)
  {
    if ss != [] {
      assert (ss + [s])[1..] == ss[1..] + [s];
      SizeOfAllAppend(ss[1..], s);
    }
  }
}
