/** The local facts of registry entries 0 to 9. */
module EntryGroup0 {
  import opened Catalogue
  import opened EntryFacts

  lemma Children0()
    ensures forall c | c in At(0).attributes :: Registered(c)
    ensures forall c | c in At(0).associations :: Registered(c)
  {
    assert At(42) == domain;
    assert At(65) == link;
    assert At(1) == breachDate;
    assert At(2) == breachCount;
    assert At(3) == breachDescription;
  }

  lemma Entry0(i: nat)
    requires i == 0
    ensures LocallySound(i)
  {
    Children0();
  }

  lemma Entry1(i: nat)
    requires i == 1
    ensures LocallySound(i)
  {
  }

  lemma Entry2(i: nat)
    requires i == 2
    ensures LocallySound(i)
  {
  }

  lemma Entry3(i: nat)
    requires i == 3
    ensures LocallySound(i)
  {
  }

  lemma Children4()
    ensures forall c | c in At(4).attributes :: Registered(c)
    ensures forall c | c in At(4).associations :: Registered(c)
  {
    assert At(5) == fileData;
    assert At(100) == hashSHA1;
    assert At(83) == hashMD5;
    assert At(102) == hashSHA256;
    assert At(106) == hashSHA3256;
    assert At(57) == filename;
    assert At(59) == filenamePattern;
  }

  lemma Entry4(i: nat)
    requires i == 4
    ensures LocallySound(i)
  {
    Children4();
  }

  lemma Entry5(i: nat)
    requires i == 5
    ensures LocallySound(i)
  {
  }

  lemma Entry6(i: nat)
    requires i == 6
    ensures LocallySound(i)
  {
  }

  lemma Entry7(i: nat)
    requires i == 7
    ensures LocallySound(i)
  {
  }

  lemma Entry8(i: nat)
    requires i == 8
    ensures LocallySound(i)
  {
  }

  lemma Entry9(i: nat)
    requires i == 9
    ensures LocallySound(i)
  {
  }

  /** Entries 0 to 9 are locally sound. */
  lemma Group(i: nat)
    requires 0 <= i < 10
    ensures LocallySound(i)
  {
    if i == 0 {
      Entry0(i);
    } else if i == 1 {
      Entry1(i);
    } else if i == 2 {
      Entry2(i);
    } else if i == 3 {
      Entry3(i);
    } else if i == 4 {
      Entry4(i);
    } else if i == 5 {
      Entry5(i);
    } else if i == 6 {
      Entry6(i);
    } else if i == 7 {
      Entry7(i);
    } else if i == 8 {
      Entry8(i);
    } else {
      Entry9(i);
    }
  }
}
