/** The local facts of registry entries 100 to 109. */
module EntryGroup10 {
  import opened Catalogue
  import opened EntryFacts

  lemma Entry100(i: nat)
    requires i == 100
    ensures LocallySound(i)
  {
  }

  lemma Entry101(i: nat)
    requires i == 101
    ensures LocallySound(i)
  {
  }

  lemma Entry102(i: nat)
    requires i == 102
    ensures LocallySound(i)
  {
  }

  lemma Entry103(i: nat)
    requires i == 103
    ensures LocallySound(i)
  {
  }

  lemma Entry104(i: nat)
    requires i == 104
    ensures LocallySound(i)
  {
  }

  lemma Entry105(i: nat)
    requires i == 105
    ensures LocallySound(i)
  {
  }

  lemma Entry106(i: nat)
    requires i == 106
    ensures LocallySound(i)
  {
  }

  lemma Entry107(i: nat)
    requires i == 107
    ensures LocallySound(i)
  {
  }

  lemma Entry108(i: nat)
    requires i == 108
    ensures LocallySound(i)
  {
  }

  lemma Entry109(i: nat)
    requires i == 109
    ensures LocallySound(i)
  {
  }

  /** Entries 100 to 109 are locally sound. */
  lemma Group(i: nat)
    requires 100 <= i < 110
    ensures LocallySound(i)
  {
    if i == 100 {
      Entry100(i);
    } else if i == 101 {
      Entry101(i);
    } else if i == 102 {
      Entry102(i);
    } else if i == 103 {
      Entry103(i);
    } else if i == 104 {
      Entry104(i);
    } else if i == 105 {
      Entry105(i);
    } else if i == 106 {
      Entry106(i);
    } else if i == 107 {
      Entry107(i);
    } else if i == 108 {
      Entry108(i);
    } else {
      Entry109(i);
    }
  }
}
