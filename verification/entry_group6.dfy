/** The local facts of registry entries 60 to 69. */
module EntryGroup6 {
  import opened Catalogue
  import opened EntryFacts

  lemma Entry60(i: nat)
    requires i == 60
    ensures LocallySound(i)
  {
  }

  lemma Entry61(i: nat)
    requires i == 61
    ensures LocallySound(i)
  {
  }

  lemma Entry62(i: nat)
    requires i == 62
    ensures LocallySound(i)
  {
  }

  lemma Entry63(i: nat)
    requires i == 63
    ensures LocallySound(i)
  {
  }

  lemma Entry64(i: nat)
    requires i == 64
    ensures LocallySound(i)
  {
  }

  lemma Entry65(i: nat)
    requires i == 65
    ensures LocallySound(i)
  {
  }

  lemma Entry66(i: nat)
    requires i == 66
    ensures LocallySound(i)
  {
  }

  lemma Entry67(i: nat)
    requires i == 67
    ensures LocallySound(i)
  {
  }

  lemma Entry68(i: nat)
    requires i == 68
    ensures LocallySound(i)
  {
  }

  lemma Entry69(i: nat)
    requires i == 69
    ensures LocallySound(i)
  {
  }

  /** Entries 60 to 69 are locally sound. */
  lemma Group(i: nat)
    requires 60 <= i < 70
    ensures LocallySound(i)
  {
    if i == 60 {
      Entry60(i);
    } else if i == 61 {
      Entry61(i);
    } else if i == 62 {
      Entry62(i);
    } else if i == 63 {
      Entry63(i);
    } else if i == 64 {
      Entry64(i);
    } else if i == 65 {
      Entry65(i);
    } else if i == 66 {
      Entry66(i);
    } else if i == 67 {
      Entry67(i);
    } else if i == 68 {
      Entry68(i);
    } else {
      Entry69(i);
    }
  }
}
