/** All registry entries are locally sound. */
module EntryAll {
  import opened Catalogue
  import opened EntryFacts
  import EntryGroup0
  import EntryGroup1
  import EntryGroup2
  import EntryGroup3
  import EntryGroup4
  import EntryGroup5
  import EntryGroup6
  import EntryGroup7
  import EntryGroup8
  import EntryGroup9
  import EntryGroup10
  import EntryGroup11
  import EntryGroup12

  lemma EntrySound(i: nat)
    requires i < Count
    ensures LocallySound(i)
  {
    if i < 10 {
      EntryGroup0.Group(i);
    } else if i < 20 {
      EntryGroup1.Group(i);
    } else if i < 30 {
      EntryGroup2.Group(i);
    } else if i < 40 {
      EntryGroup3.Group(i);
    } else if i < 50 {
      EntryGroup4.Group(i);
    } else if i < 60 {
      EntryGroup5.Group(i);
    } else if i < 70 {
      EntryGroup6.Group(i);
    } else if i < 80 {
      EntryGroup7.Group(i);
    } else if i < 90 {
      EntryGroup8.Group(i);
    } else if i < 100 {
      EntryGroup9.Group(i);
    } else if i < 110 {
      EntryGroup10.Group(i);
    } else if i < 120 {
      EntryGroup11.Group(i);
    } else {
      EntryGroup12.Group(i);
    }
  }
}
