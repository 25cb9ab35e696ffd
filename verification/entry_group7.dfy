/** The local facts of registry entries 70 to 79. */
module EntryGroup7 {
  import opened Catalogue
  import opened EntryFacts

  lemma Entry70(i: nat)
    requires i == 70
    ensures LocallySound(i)
  {
  }

  lemma Entry71(i: nat)
    requires i == 71
    ensures LocallySound(i)
  {
  }

  lemma Entry72(i: nat)
    requires i == 72
    ensures LocallySound(i)
  {
  }

  lemma Entry73(i: nat)
    requires i == 73
    ensures LocallySound(i)
  {
  }

  lemma Entry74(i: nat)
    requires i == 74
    ensures LocallySound(i)
  {
  }

  lemma Entry75(i: nat)
    requires i == 75
    ensures LocallySound(i)
  {
  }

  lemma Entry76(i: nat)
    requires i == 76
    ensures LocallySound(i)
  {
  }

  lemma Children77()
    ensures forall c | c in At(77).attributes :: Registered(c)
    ensures forall c | c in At(77).associations :: Registered(c)
  {
    assert At(23) == issuer;
    assert At(68) == dateOfIssue;
    assert At(69) == expirationDate;
  }

  lemma Entry77(i: nat)
    requires i == 77
    ensures LocallySound(i)
  {
    Children77();
  }

  lemma Children78()
    ensures forall c | c in At(78).attributes :: Registered(c)
    ensures forall c | c in At(78).associations :: Registered(c)
  {
    assert At(36) == subnet;
  }

  lemma Entry78(i: nat)
    requires i == 78
    ensures LocallySound(i)
  {
    Children78();
  }

  lemma Entry79(i: nat)
    requires i == 79
    ensures LocallySound(i)
  {
  }

  /** Entries 70 to 79 are locally sound. */
  lemma Group(i: nat)
    requires 70 <= i < 80
    ensures LocallySound(i)
  {
    if i == 70 {
      Entry70(i);
    } else if i == 71 {
      Entry71(i);
    } else if i == 72 {
      Entry72(i);
    } else if i == 73 {
      Entry73(i);
    } else if i == 74 {
      Entry74(i);
    } else if i == 75 {
      Entry75(i);
    } else if i == 76 {
      Entry76(i);
    } else if i == 77 {
      Entry77(i);
    } else if i == 78 {
      Entry78(i);
    } else {
      Entry79(i);
    }
  }
}
