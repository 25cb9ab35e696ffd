/** The local facts of registry entries 110 to 119. */
module EntryGroup11 {
  import opened Catalogue
  import opened EntryFacts

  lemma Entry110(i: nat)
    requires i == 110
    ensures LocallySound(i)
  {
  }

  lemma Entry111(i: nat)
    requires i == 111
    ensures LocallySound(i)
  {
  }

  lemma Entry112(i: nat)
    requires i == 112
    ensures LocallySound(i)
  {
  }

  lemma Entry113(i: nat)
    requires i == 113
    ensures LocallySound(i)
  {
  }

  lemma Entry114(i: nat)
    requires i == 114
    ensures LocallySound(i)
  {
  }

  lemma Entry115(i: nat)
    requires i == 115
    ensures LocallySound(i)
  {
  }

  lemma Entry116(i: nat)
    requires i == 116
    ensures LocallySound(i)
  {
  }

  lemma Entry117(i: nat)
    requires i == 117
    ensures LocallySound(i)
  {
  }

  lemma Entry118(i: nat)
    requires i == 118
    ensures LocallySound(i)
  {
  }

  lemma Entry119(i: nat)
    requires i == 119
    ensures LocallySound(i)
  {
  }

  /** Entries 110 to 119 are locally sound. */
  lemma Group(i: nat)
    requires 110 <= i < 120
    ensures LocallySound(i)
  {
    if i == 110 {
      Entry110(i);
    } else if i == 111 {
      Entry111(i);
    } else if i == 112 {
      Entry112(i);
    } else if i == 113 {
      Entry113(i);
    } else if i == 114 {
      Entry114(i);
    } else if i == 115 {
      Entry115(i);
    } else if i == 116 {
      Entry116(i);
    } else if i == 117 {
      Entry117(i);
    } else if i == 118 {
      Entry118(i);
    } else {
      Entry119(i);
    }
  }
}
