/** Integrity of the type taxonomy: the properties the registry promises
    as a whole, derived from the entry-by-entry facts. */
module Integrity {
  import opened DataTypes
  import opened Catalogue
  import opened Lookup
  import opened EntryFacts
  import EntryAll

  /** Number of definitions in the tree rooted at d, d included. */
  function Size(d: Definition): nat
    decreases d, 1
  {
    1 + SizeOf(d.attributes) + SizeOf(d.associations)
  }

  /** Total size of the trees of a sequence of definitions. */
  function SizeOf(ds: seq<Definition>): nat
    decreases ds, 0
  {
    if ds == [] then 0 else Size(ds[0]) + SizeOf(ds[1..])
  }

  /** x occurs somewhere below d, among its attributes or associations or
      theirs, at any depth. */
  ghost predicate Nested(d: Definition, x: Definition)
    decreases d
  {
    || (exists c | c in d.attributes :: c == x || Nested(c, x))
    || (exists c | c in d.associations :: c == x || Nested(c, x))
  }

  lemma {:induction false} MemberSize(c: Definition, ds: seq<Definition>)
    requires c in ds
    ensures Size(c) <= SizeOf(ds)
    decreases ds
  {
    if ds[0] != c {
      MemberSize(c, ds[1..]);
    }
  }

  /** A definition nested in d is strictly smaller than d. */
  lemma {:induction false} NestedSmaller(d: Definition, x: Definition)
    requires Nested(d, x)
    ensures Size(x) < Size(d)
    decreases d
  {
    if c :| c in d.attributes && (c == x || Nested(c, x)) {
      MemberSize(c, d.attributes);
      if c != x { NestedSmaller(c, x); }
    } else {
      var c :| c in d.associations && (c == x || Nested(c, x));
      MemberSize(c, d.associations);
      if c != x { NestedSmaller(c, x); }
    }
  }

  /** Lookup by name is complete and exact: it finds position i exactly
      when entry i carries that name. */
  lemma FindIff(name: string, i: nat)
    ensures Find(name) == Some(i) <==> i < Count && At(i).typeName == name
  {
    if i < Count && At(i).typeName == name {
      EntryAll.EntrySound(i);
    }
  }

  /** The type names of the registry are pairwise distinct. */
  lemma TypeNamesUnique()
    ensures |Definitions| == Count
    ensures forall i, j | 0 <= i < j < |Definitions| :: Definitions[i].typeName != Definitions[j].typeName
  {
    forall i, j | 0 <= i < j < |Definitions|
      ensures Definitions[i].typeName != Definitions[j].typeName
    {
      EntryAll.EntrySound(i);
      EntryAll.EntrySound(j);
    }
  }

  /** Every correlate name of a registered definition is the type name of
      one of that definition's own attributes. */
  lemma CorrelateNamesOwnAttribute()
    ensures forall i, n | 0 <= i < |Definitions| && n in Definitions[i].correlate ::
      exists c | c in Definitions[i].attributes :: c.typeName == n
  {
    forall i, n | 0 <= i < |Definitions| && n in Definitions[i].correlate
      ensures exists c | c in Definitions[i].attributes :: c.typeName == n
    {
      EntryAll.EntrySound(i);
      var names := TypeNames(At(i).attributes);
      var k :| 0 <= k < |names| && names[k] == n;
      assert At(i).attributes[k] in At(i).attributes;
    }
  }

  /** Every correlate name is the type name of a registered definition, so
      looking it up succeeds. */
  lemma CorrelateResolves()
    ensures forall i, n | 0 <= i < |Definitions| && n in Definitions[i].correlate ::
      && Find(n).Some?
      && Definitions[Find(n).value].typeName == n
  {
    forall i, n | 0 <= i < |Definitions| && n in Definitions[i].correlate
      ensures Find(n).Some? && Definitions[Find(n).value].typeName == n
    {
      EntryAll.EntrySound(i);
      var names := TypeNames(At(i).attributes);
      var k :| 0 <= k < |names| && names[k] == n;
      var c := At(i).attributes[k];
      assert c in At(i).attributes;
      var j :| 0 <= j < Count && At(j) == c;
      FindIff(n, j);
    }
  }

  /** A definition nested, at any depth, in a registered one is itself
      registered. */
  lemma {:induction false} NestedIsRegistered(d: Definition, x: Definition)
    requires Registered(d)
    requires Nested(d, x)
    ensures Registered(x)
    decreases d
  {
    var k :| 0 <= k < Count && At(k) == d;
    EntryAll.EntrySound(k);
    if c :| c in d.attributes && (c == x || Nested(c, x)) {
      if c != x { NestedIsRegistered(c, x); }
    } else {
      var c :| c in d.associations && (c == x || Nested(c, x));
      if c != x { NestedIsRegistered(c, x); }
    }
  }

  /** Every attribute or association, at any depth, is structurally equal
      to an entry of the registry. */
  lemma NestedRegistered()
    ensures forall i, x | 0 <= i < |Definitions| && Nested(Definitions[i], x) ::
      exists j | 0 <= j < |Definitions| :: Definitions[j] == x
  {
    forall i, x | 0 <= i < |Definitions| && Nested(Definitions[i], x)
      ensures exists j | 0 <= j < |Definitions| :: Definitions[j] == x
    {
      NestedIsRegistered(At(i), x);
      var j :| 0 <= j < Count && At(j) == x;
      assert Definitions[j] == x;
    }
  }

  /** Every data type, of a registered definition and of everything nested
      in it, is one of the declared constants. */
  lemma DataTypesDeclared()
    ensures forall i | 0 <= i < |Definitions| :: IsDataType(Definitions[i].dataType)
    ensures forall i, x | 0 <= i < |Definitions| && Nested(Definitions[i], x) :: IsDataType(x.dataType)
  {
    forall i | 0 <= i < |Definitions|
      ensures IsDataType(Definitions[i].dataType)
    {
      EntryAll.EntrySound(i);
    }
    forall i, x | 0 <= i < |Definitions| && Nested(Definitions[i], x)
      ensures IsDataType(x.dataType)
    {
      NestedIsRegistered(At(i), x);
      var j :| 0 <= j < Count && At(j) == x;
      EntryAll.EntrySound(j);
    }
  }

  /** No definition contains, at any depth, a definition with its own type
      name. */
  lemma NoSelfNesting()
    ensures forall i, x | 0 <= i < |Definitions| && Nested(Definitions[i], x) ::
      x.typeName != Definitions[i].typeName
  {
    forall i, x | 0 <= i < |Definitions| && Nested(Definitions[i], x)
      ensures x.typeName != Definitions[i].typeName
    {
      NestedIsRegistered(At(i), x);
      var j :| 0 <= j < Count && At(j) == x;
      NestedSmaller(At(i), x);
      if x.typeName == At(i).typeName {
        FindIff(x.typeName, i);
        FindIff(x.typeName, j);
      }
    }
  }
}
