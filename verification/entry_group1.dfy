/** The local facts of registry entries 10 to 19. */
module EntryGroup1 {
  import opened Catalogue
  import opened EntryFacts

  lemma Children10()
    ensures forall c | c in At(10).attributes :: Registered(c)
    ensures forall c | c in At(10).associations :: Registered(c)
  {
    assert At(11) == malwareFamily;
    assert At(12) == malwareType;
  }

  lemma Entry10(i: nat)
    requires i == 10
    ensures LocallySound(i)
  {
    Children10();
  }

  lemma Entry11(i: nat)
    requires i == 11
    ensures LocallySound(i)
  {
  }

  lemma Entry12(i: nat)
    requires i == 12
    ensures LocallySound(i)
  {
  }

  lemma Children13()
    ensures forall c | c in At(13).attributes :: Registered(c)
    ensures forall c | c in At(13).associations :: Registered(c)
  {
    assert At(10) == malware;
    assert At(4) == file;
  }

  lemma Entry13(i: nat)
    requires i == 13
    ensures LocallySound(i)
  {
    Children13();
  }

  lemma Children14()
    ensures forall c | c in At(14).attributes :: Registered(c)
    ensures forall c | c in At(14).associations :: Registered(c)
  {
    assert At(15) == descriptor;
  }

  lemma Entry14(i: nat)
    requires i == 14
    ensures LocallySound(i)
  {
    Children14();
  }

  lemma Entry15(i: nat)
    requires i == 15
    ensures LocallySound(i)
  {
  }

  lemma Entry16(i: nat)
    requires i == 16
    ensures LocallySound(i)
  {
  }

  lemma Entry17(i: nat)
    requires i == 17
    ensures LocallySound(i)
  {
  }

  lemma Entry18(i: nat)
    requires i == 18
    ensures LocallySound(i)
  {
  }

  lemma Entry19(i: nat)
    requires i == 19
    ensures LocallySound(i)
  {
  }

  /** Entries 10 to 19 are locally sound. */
  lemma Group(i: nat)
    requires 10 <= i < 20
    ensures LocallySound(i)
  {
    if i == 10 {
      Entry10(i);
    } else if i == 11 {
      Entry11(i);
    } else if i == 12 {
      Entry12(i);
    } else if i == 13 {
      Entry13(i);
    } else if i == 14 {
      Entry14(i);
    } else if i == 15 {
      Entry15(i);
    } else if i == 16 {
      Entry16(i);
    } else if i == 17 {
      Entry17(i);
    } else if i == 18 {
      Entry18(i);
    } else {
      Entry19(i);
    }
  }
}
