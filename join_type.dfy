/** The join semantics of a join definition (`JoinItem.JoinType`). */
module JoinTypes {
  import opened Wrappers
  import opened JavaLang

  datatype JoinType = INNER | OUTER {

    /** `name()`: the constant's identifier. */
    function Name(): string {
      match this
      case INNER => "INNER"
      case OUTER => "OUTER"
    }

    /** `getLabel()`: the lower-cased name, equal to the name ignoring case and free of capitals. */
    function Label(): (l: string)
      ensures EqualsIgnoreCase(Name(), Some(l))
      ensures forall i :: 0 <= i < |l| ==> !('A' <= l[i] <= 'Z')
    {
      ToLowerAscii(Name())
    }
  }

  /** `values()`, in declaration order. */
  const Values: seq<JoinType> := [INNER, OUTER]

  /** The loop of `find`: the first of `types` whose name equals `name` ignoring case, else `INNER`. */
  function FindIn(types: seq<JoinType>, name: JString): (t: JoinType)
    ensures t == INNER || (t in types && EqualsIgnoreCase(t.Name(), name))
    ensures (exists i :: 0 <= i < |types| && EqualsIgnoreCase(types[i].Name(), name)) ==>
      EqualsIgnoreCase(t.Name(), name)
  {
    if types == [] then INNER
    else if EqualsIgnoreCase(types[0].Name(), name) then types[0]
    else FindIn(types[1..], name)
  }

  /**
   * `JoinType.find(name)`: never fails; `OUTER` exactly when `name` is
   * "outer" in any case, `INNER` for every other input, null included.
   */
  function Find(name: JString): (t: JoinType)
    ensures t == OUTER <==> EqualsIgnoreCase("OUTER", name)
  {
    NoNameMatchesBoth(name);
    assert FindIn([], name) == INNER;
    assert FindIn([OUTER], name) == if EqualsIgnoreCase("OUTER", name) then OUTER else INNER;
    assert Values[0] == INNER && Values[1..] == [OUTER];
    FindIn(Values, name)
  }

  /** No string equals both "INNER" and "OUTER" ignoring case: they differ in their first letter. */
  lemma NoNameMatchesBoth(name: JString)
    ensures !(EqualsIgnoreCase("INNER", name) && EqualsIgnoreCase("OUTER", name))
  {
    if EqualsIgnoreCase("INNER", name) {
      assert LowerAscii(name.value[0]) == LowerAscii("INNER"[0]) == 'i';
    }
  }

  /** `find(t.name())` recovers `t`: the form written to the configuration reads back. */
  lemma FindName(t: JoinType)
    ensures Find(Some(t.Name())) == t
  {
  }

  /** `find(t.getLabel())` recovers `t`. */
  lemma FindLabel(t: JoinType)
    ensures Find(Some(t.Label())) == t
  {
    var l := t.Label();
    assert forall i :: 0 <= i < |l| ==> LowerAscii(l[i]) == LowerAscii(t.Name()[i]);
  }
}
