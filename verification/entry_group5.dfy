/** The local facts of registry entries 50 to 59. */
module EntryGroup5 {
  import opened Catalogue
  import opened EntryFacts

  lemma Entry50(i: nat)
    requires i == 50
    ensures LocallySound(i)
  {
  }

  lemma Entry51(i: nat)
    requires i == 51
    ensures LocallySound(i)
  {
  }

  lemma Entry52(i: nat)
    requires i == 52
    ensures LocallySound(i)
  {
  }

  lemma Children53()
    ensures forall c | c in At(53).attributes :: Registered(c)
    ensures forall c | c in At(53).associations :: Registered(c)
  {
    assert At(46) == emailBody;
    assert At(47) == emailDisplayName;
    assert At(48) == emailHeader;
    assert At(45) == emailAddress;
    assert At(50) == emailSubject;
    assert At(4) == file;
  }

  lemma Entry53(i: nat)
    requires i == 53
    ensures LocallySound(i)
  {
    Children53();
  }

  lemma Entry54(i: nat)
    requires i == 54
    ensures LocallySound(i)
  {
  }

  lemma Entry55(i: nat)
    requires i == 55
    ensures LocallySound(i)
  {
  }

  lemma Entry56(i: nat)
    requires i == 56
    ensures LocallySound(i)
  {
  }

  lemma Entry57(i: nat)
    requires i == 57
    ensures LocallySound(i)
  {
  }

  lemma Entry58(i: nat)
    requires i == 58
    ensures LocallySound(i)
  {
  }

  lemma Entry59(i: nat)
    requires i == 59
    ensures LocallySound(i)
  {
  }

  /** Entries 50 to 59 are locally sound. */
  lemma Group(i: nat)
    requires 50 <= i < 60
    ensures LocallySound(i)
  {
    if i == 50 {
      Entry50(i);
    } else if i == 51 {
      Entry51(i);
    } else if i == 52 {
      Entry52(i);
    } else if i == 53 {
      Entry53(i);
    } else if i == 54 {
      Entry54(i);
    } else if i == 55 {
      Entry55(i);
    } else if i == 56 {
      Entry56(i);
    } else if i == 57 {
      Entry57(i);
    } else if i == 58 {
      Entry58(i);
    } else {
      Entry59(i);
    }
  }
}
