/** The local facts of registry entries 30 to 39. */
module EntryGroup3 {
  import opened Catalogue
  import opened EntryFacts

  lemma Entry30(i: nat)
    requires i == 30
    ensures LocallySound(i)
  {
  }

  lemma Entry31(i: nat)
    requires i == 31
    ensures LocallySound(i)
  {
  }

  lemma Children32()
    ensures forall c | c in At(32).attributes :: Registered(c)
    ensures forall c | c in At(32).associations :: Registered(c)
  {
    assert At(23) == issuer;
  }

  lemma Entry32(i: nat)
    requires i == 32
    ensures LocallySound(i)
  {
    Children32();
  }

  lemma Entry33(i: nat)
    requires i == 33
    ensures LocallySound(i)
  {
  }

  lemma Entry34(i: nat)
    requires i == 34
    ensures LocallySound(i)
  {
  }

  lemma Entry35(i: nat)
    requires i == 35
    ensures LocallySound(i)
  {
  }

  lemma Children36()
    ensures forall c | c in At(36).attributes :: Registered(c)
    ensures forall c | c in At(36).associations :: Registered(c)
  {
    assert At(19) == country;
    assert At(43) == city;
    assert At(17) == latitude;
    assert At(18) == longitude;
    assert At(9) == asn;
    assert At(8) == aso;
  }

  lemma Entry36(i: nat)
    requires i == 36
    ensures LocallySound(i)
  {
    Children36();
  }

  lemma Entry37(i: nat)
    requires i == 37
    ensures LocallySound(i)
  {
  }

  lemma Entry38(i: nat)
    requires i == 38
    ensures LocallySound(i)
  {
  }

  lemma Entry39(i: nat)
    requires i == 39
    ensures LocallySound(i)
  {
  }

  /** Entries 30 to 39 are locally sound. */
  lemma Group(i: nat)
    requires 30 <= i < 40
    ensures LocallySound(i)
  {
    if i == 30 {
      Entry30(i);
    } else if i == 31 {
      Entry31(i);
    } else if i == 32 {
      Entry32(i);
    } else if i == 33 {
      Entry33(i);
    } else if i == 34 {
      Entry34(i);
    } else if i == 35 {
      Entry35(i);
    } else if i == 36 {
      Entry36(i);
    } else if i == 37 {
      Entry37(i);
    } else if i == 38 {
      Entry38(i);
    } else {
      Entry39(i);
    }
  }
}
