/** The local facts of registry entries 20 to 29. */
module EntryGroup2 {
  import opened Catalogue
  import opened EntryFacts

  lemma Children20()
    ensures forall c | c in At(20).attributes :: Registered(c)
    ensures forall c | c in At(20).associations :: Registered(c)
  {
    assert At(22) == value;
  }

  lemma Entry20(i: nat)
    requires i == 20
    ensures LocallySound(i)
  {
    Children20();
  }

  lemma Entry21(i: nat)
    requires i == 21
    ensures LocallySound(i)
  {
  }

  lemma Entry22(i: nat)
    requires i == 22
    ensures LocallySound(i)
  {
  }

  lemma Entry23(i: nat)
    requires i == 23
    ensures LocallySound(i)
  {
  }

  lemma Entry24(i: nat)
    requires i == 24
    ensures LocallySound(i)
  {
  }

  lemma Children25()
    ensures forall c | c in At(25).attributes :: Registered(c)
    ensures forall c | c in At(25).associations :: Registered(c)
  {
    assert At(19) == country;
    assert At(43) == city;
  }

  lemma Entry25(i: nat)
    requires i == 25
    ensures LocallySound(i)
  {
    Children25();
  }

  lemma Entry26(i: nat)
    requires i == 26
    ensures LocallySound(i)
  {
  }

  lemma Entry27(i: nat)
    requires i == 27
    ensures LocallySound(i)
  {
  }

  lemma Children28()
    ensures forall c | c in At(28).attributes :: Registered(c)
    ensures forall c | c in At(28).associations :: Registered(c)
  {
    assert At(29) == bic;
    assert At(30) == bin;
  }

  lemma Entry28(i: nat)
    requires i == 28
    ensures LocallySound(i)
  {
    Children28();
  }

  lemma Entry29(i: nat)
    requires i == 29
    ensures LocallySound(i)
  {
  }

  /** Entries 20 to 29 are locally sound. */
  lemma Group(i: nat)
    requires 20 <= i < 30
    ensures LocallySound(i)
  {
    if i == 20 {
      Entry20(i);
    } else if i == 21 {
      Entry21(i);
    } else if i == 22 {
      Entry22(i);
    } else if i == 23 {
      Entry23(i);
    } else if i == 24 {
      Entry24(i);
    } else if i == 25 {
      Entry25(i);
    } else if i == 26 {
      Entry26(i);
    } else if i == 27 {
      Entry27(i);
    } else if i == 28 {
      Entry28(i);
    } else {
      Entry29(i);
    }
  }
}
