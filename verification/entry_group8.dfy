/** The local facts of registry entries 80 to 89. */
module EntryGroup8 {
  import opened Catalogue
  import opened EntryFacts

  lemma Entry80(i: nat)
    requires i == 80
    ensures LocallySound(i)
  {
  }

  lemma Entry81(i: nat)
    requires i == 81
    ensures LocallySound(i)
  {
  }

  lemma Entry82(i: nat)
    requires i == 82
    ensures LocallySound(i)
  {
  }

  lemma Entry83(i: nat)
    requires i == 83
    ensures LocallySound(i)
  {
  }

  lemma Entry84(i: nat)
    requires i == 84
    ensures LocallySound(i)
  {
  }

  lemma Entry85(i: nat)
    requires i == 85
    ensures LocallySound(i)
  {
  }

  lemma Children86()
    ensures forall c | c in At(86).attributes :: Registered(c)
    ensures forall c | c in At(86).associations :: Registered(c)
  {
    assert At(44) == issuingCountry;
    assert At(23) == issuer;
    assert At(68) == dateOfIssue;
    assert At(69) == expirationDate;
  }

  lemma Entry86(i: nat)
    requires i == 86
    ensures LocallySound(i)
  {
    Children86();
  }

  lemma Entry87(i: nat)
    requires i == 87
    ensures LocallySound(i)
  {
  }

  lemma Entry88(i: nat)
    requires i == 88
    ensures LocallySound(i)
  {
  }

  lemma Entry89(i: nat)
    requires i == 89
    ensures LocallySound(i)
  {
  }

  /** Entries 80 to 89 are locally sound. */
  lemma Group(i: nat)
    requires 80 <= i < 90
    ensures LocallySound(i)
  {
    if i == 80 {
      Entry80(i);
    } else if i == 81 {
      Entry81(i);
    } else if i == 82 {
      Entry82(i);
    } else if i == 83 {
      Entry83(i);
    } else if i == 84 {
      Entry84(i);
    } else if i == 85 {
      Entry85(i);
    } else if i == 86 {
      Entry86(i);
    } else if i == 87 {
      Entry87(i);
    } else if i == 88 {
      Entry88(i);
    } else {
      Entry89(i);
    }
  }
}
