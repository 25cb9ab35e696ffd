/** The local facts of registry entries 40 to 49. */
module EntryGroup4 {
  import opened Catalogue
  import opened EntryFacts

  lemma Entry40(i: nat)
    requires i == 40
    ensures LocallySound(i)
  {
  }

  lemma Entry41(i: nat)
    requires i == 41
    ensures LocallySound(i)
  {
  }

  lemma Children42()
    ensures forall c | c in At(42).attributes :: Registered(c)
    ensures forall c | c in At(42).associations :: Registered(c)
  {
    assert At(120) == whoIsRegistrant;
    assert At(121) == whoIsRegistrar;
  }

  lemma Entry42(i: nat)
    requires i == 42
    ensures LocallySound(i)
  {
    Children42();
  }

  lemma Entry43(i: nat)
    requires i == 43
    ensures LocallySound(i)
  {
  }

  lemma Entry44(i: nat)
    requires i == 44
    ensures LocallySound(i)
  {
  }

  lemma Entry45(i: nat)
    requires i == 45
    ensures LocallySound(i)
  {
  }

  lemma Entry46(i: nat)
    requires i == 46
    ensures LocallySound(i)
  {
  }

  lemma Entry47(i: nat)
    requires i == 47
    ensures LocallySound(i)
  {
  }

  lemma Entry48(i: nat)
    requires i == 48
    ensures LocallySound(i)
  {
  }

  lemma Entry49(i: nat)
    requires i == 49
    ensures LocallySound(i)
  {
  }

  /** Entries 40 to 49 are locally sound. */
  lemma Group(i: nat)
    requires 40 <= i < 50
    ensures LocallySound(i)
  {
    if i == 40 {
      Entry40(i);
    } else if i == 41 {
      Entry41(i);
    } else if i == 42 {
      Entry42(i);
    } else if i == 43 {
      Entry43(i);
    } else if i == 44 {
      Entry44(i);
    } else if i == 45 {
      Entry45(i);
    } else if i == 46 {
      Entry46(i);
    } else if i == 47 {
      Entry47(i);
    } else if i == 48 {
      Entry48(i);
    } else {
      Entry49(i);
    }
  }
}
