/** The local facts of registry entries 120 to 129. */
module EntryGroup12 {
  import opened Catalogue
  import opened EntryFacts

  lemma Entry120(i: nat)
    requires i == 120
    ensures LocallySound(i)
  {
  }

  lemma Entry121(i: nat)
    requires i == 121
    ensures LocallySound(i)
  {
  }

  lemma Entry122(i: nat)
    requires i == 122
    ensures LocallySound(i)
  {
  }

  lemma Entry123(i: nat)
    requires i == 123
    ensures LocallySound(i)
  {
  }

  lemma Entry124(i: nat)
    requires i == 124
    ensures LocallySound(i)
  {
  }

  lemma Entry125(i: nat)
    requires i == 125
    ensures LocallySound(i)
  {
  }

  lemma Entry126(i: nat)
    requires i == 126
    ensures LocallySound(i)
  {
  }

  lemma Entry127(i: nat)
    requires i == 127
    ensures LocallySound(i)
  {
  }

  lemma Entry128(i: nat)
    requires i == 128
    ensures LocallySound(i)
  {
  }

  lemma Children129()
    ensures forall c | c in At(129).attributes :: Registered(c)
    ensures forall c | c in At(129).associations :: Registered(c)
  {
    assert At(100) == hashSHA1;
    assert At(83) == hashMD5;
    assert At(102) == hashSHA256;
    assert At(106) == hashSHA3256;
  }

  lemma Entry129(i: nat)
    requires i == 129
    ensures LocallySound(i)
  {
    Children129();
  }

  /** Entries 120 to 129 are locally sound. */
  lemma Group(i: nat)
    requires 120 <= i < 130
    ensures LocallySound(i)
  {
    if i == 120 {
      Entry120(i);
    } else if i == 121 {
      Entry121(i);
    } else if i == 122 {
      Entry122(i);
    } else if i == 123 {
      Entry123(i);
    } else if i == 124 {
      Entry124(i);
    } else if i == 125 {
      Entry125(i);
    } else if i == 126 {
      Entry126(i);
    } else if i == 127 {
      Entry127(i);
    } else if i == 128 {
      Entry128(i);
    } else {
      Entry129(i);
    }
  }
}
