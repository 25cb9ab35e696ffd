/** Entry-by-entry facts about the registry, checked on the constant data
    in groups of 10 entries. */
module EntryFacts {
  import opened DataTypes
  import opened Catalogue
  import opened Lookup

  /** x is a registered definition: some registry entry equals x in
      every field. */
  ghost predicate Registered(x: Definition) {
    exists k | 0 <= k < Count :: At(k) == x
  }

  /** The type names of a sequence of definitions. */
  function TypeNames(ds: seq<Definition>): (r: seq<string>)
    ensures |r| == |ds|
    ensures forall k | 0 <= k < |ds| :: r[k] == ds[k].typeName
  {
    if ds == [] then [] else [ds[0].typeName] + TypeNames(ds[1..])
  }

  /** What entry i promises on its own: the summary of its name leads back
      to it, its data type is declared, its children are registered
      definitions, and each correlate name is the name of one of its
      attributes. */
  ghost predicate LocallySound(i: nat)
    requires i < Count
  {
    && PositionOfSig(Sig(At(i).typeName)) == Some(i)
    && IsDataType(At(i).dataType)
    && (forall c | c in At(i).attributes :: Registered(c))
    && (forall c | c in At(i).associations :: Registered(c))
    && (forall n | n in At(i).correlate :: n in TypeNames(At(i).attributes))
  }

}
