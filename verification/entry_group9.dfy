/** The local facts of registry entries 90 to 99. */
module EntryGroup9 {
  import opened Catalogue
  import opened EntryFacts

  lemma Entry90(i: nat)
    requires i == 90
    ensures LocallySound(i)
  {
  }

  lemma Entry91(i: nat)
    requires i == 91
    ensures LocallySound(i)
  {
  }

  lemma Entry92(i: nat)
    requires i == 92
    ensures LocallySound(i)
  {
  }

  lemma Entry93(i: nat)
    requires i == 93
    ensures LocallySound(i)
  {
  }

  lemma Entry94(i: nat)
    requires i == 94
    ensures LocallySound(i)
  {
  }

  lemma Children95()
    ensures forall c | c in At(95).attributes :: Registered(c)
    ensures forall c | c in At(95).associations :: Registered(c)
  {
    assert At(96) == processState;
  }

  lemma Entry95(i: nat)
    requires i == 95
    ensures LocallySound(i)
  {
    Children95();
  }

  lemma Entry96(i: nat)
    requires i == 96
    ensures LocallySound(i)
  {
  }

  lemma Entry97(i: nat)
    requires i == 97
    ensures LocallySound(i)
  {
  }

  lemma Entry98(i: nat)
    requires i == 98
    ensures LocallySound(i)
  {
  }

  lemma Entry99(i: nat)
    requires i == 99
    ensures LocallySound(i)
  {
  }

  /** Entries 90 to 99 are locally sound. */
  lemma Group(i: nat)
    requires 90 <= i < 100
    ensures LocallySound(i)
  {
    if i == 90 {
      Entry90(i);
    } else if i == 91 {
      Entry91(i);
    } else if i == 92 {
      Entry92(i);
    } else if i == 93 {
      Entry93(i);
    } else if i == 94 {
      Entry94(i);
    } else if i == 95 {
      Entry95(i);
    } else if i == 96 {
      Entry96(i);
    } else if i == 97 {
      Entry97(i);
    } else if i == 98 {
      Entry98(i);
    } else {
      Entry99(i);
    }
  }
}
