/** The pattern ValidateMime checks, `^([a-z]+)[/]([a-z]+[a-z+-.][a-z]+)+$`,
    written out as predicates, and an equivalent description of the strings
    it accepts. */
module MimePattern {
  import opened Ascii

  /** The class `[a-z+-.]`. Inside brackets `+-.` is the range from '+'
      (0x2B) to '.' (0x2E), so the class holds ',' as well as '+', '-', '.'. */
  predicate InGroupClass(c: char) { IsLetter(c) || '+' <= c <= '.' }

  /** The non-letters of the class: '+', ',', '-' and '.'. */
  predicate IsSeparator(c: char) { '+' <= c <= '.' }

  /** `[a-z]+` matched against the whole of s. */
  predicate IsLetters(s: string) {
    |s| >= 1 && forall i | 0 <= i < |s| :: IsLetter(s[i])
  }

  /** One repetition of the group `[a-z]+[a-z+-.][a-z]+`. */
  predicate IsGroup(b: string) {
    exists m | 1 <= m < |b| - 1 :: IsLetters(b[..m]) && InGroupClass(b[m]) && IsLetters(b[m + 1..])
  }

  /** `([a-z]+[a-z+-.][a-z]+)+` matched against the whole of s: a first group
      of length n, then either nothing or more groups. */
  predicate IsGroups(s: string)
    decreases |s|
  {
    exists n | 3 <= n <= |s| :: IsGroup(s[..n]) && (n == |s| || IsGroups(s[n..]))
  }

  /** The whole anchored pattern: letters, one '/', then the groups. A
      match is at least five characters long: one letter, the '/', and a
      group of three. */
  predicate Matches(v: string): (r: bool)
    ensures r ==> |v| >= 5 && IsLetter(v[0])
  {
    exists k | 1 <= k < |v| :: IsLetters(v[..k]) && v[k] == '/' && IsGroups(v[k + 1..])
  }

  /** What the groups accept, stated without repetition: at least three
      characters of the class, a letter at both ends, and any two separators
      at least three positions apart. "vnd.ms-excel" and "a,b" qualify;
      "a.b.c", "x+" and "js" do not. */
  predicate IsSubtype(s: string) {
    && |s| >= 3
    && (forall i | 0 <= i < |s| :: InGroupClass(s[i]))
    && IsLetter(s[0])
    && IsLetter(s[|s| - 1])
    && (forall i, j | 0 <= i < j < |s| && IsSeparator(s[i]) && IsSeparator(s[j]) :: j - i >= 3)
  }

  /** Position of the first separator of s, or |s| when there is none. */
  function FirstSeparator(s: string): (p: nat)
    ensures p <= |s|
    ensures p < |s| ==> IsSeparator(s[p])
    ensures forall i | 0 <= i < p :: !IsSeparator(s[i])
  {
    if s == [] then 0 else if IsSeparator(s[0]) then 0 else 1 + FirstSeparator(s[1..])
  }

  lemma {:induction false} GroupsAreSubtype(s: string)
    requires IsGroups(s)
    ensures IsSubtype(s)
    decreases |s|
  {
    var n :| 3 <= n <= |s| && IsGroup(s[..n]) && (n == |s| || IsGroups(s[n..]));
    var b := s[..n];
    var m :| 1 <= m < |b| - 1 && IsLetters(b[..m]) && InGroupClass(b[m]) && IsLetters(b[m + 1..]);
    assert forall i | 0 <= i < n && i != m :: IsLetter(s[i]) by {
      forall i | 0 <= i < n && i != m ensures IsLetter(s[i]) {
        if i < m { assert s[i] == b[..m][i]; } else { assert s[i] == b[m + 1..][i - m - 1]; }
      }
    }
    if n < |s| {
      var rest := s[n..];
      GroupsAreSubtype(rest);
      assert forall j | n <= j < |s| :: s[j] == rest[j - n];
    }
  }

  /** In a subtype, every character that is not a separator is a letter. */
  lemma SubtypeLetters(s: string)
    requires IsSubtype(s)
    ensures forall i | 0 <= i < |s| && !IsSeparator(s[i]) :: IsLetter(s[i])
  {
  }

  /** A subtype whose only separator, if any, is at p is a single group. */
  lemma SubtypeSingleGroup(s: string, p: nat)
    requires IsSubtype(s)
    requires forall i | 0 <= i < |s| && i != p :: !IsSeparator(s[i])
    ensures IsGroup(s)
  {
    SubtypeLetters(s);
    var m := if p < |s| && IsSeparator(s[p]) then p else 1;
    assert 1 <= m < |s| - 1 by { assert IsLetter(s[0]) && IsLetter(s[|s| - 1]); }
    assert IsLetters(s[..m]) by {
      forall i | 0 <= i < m ensures IsLetter(s[..m][i]) { assert s[..m][i] == s[i]; }
    }
    var t := s[m + 1..];
    assert IsLetters(t) by {
      forall i | 0 <= i < |t| ensures IsLetter(t[i]) { assert t[i] == s[i + m + 1]; }
    }
    assert InGroupClass(s[m]);
  }

  /** A subtype whose first separator is at p and which has another one
      at q starts with the group s[..p + 2], and what follows is a shorter
      subtype. */
  lemma SubtypeSplits(s: string, p: nat, q: nat)
    requires IsSubtype(s)
    requires p < q < |s| && IsSeparator(s[p]) && IsSeparator(s[q])
    requires forall i | 0 <= i < p :: !IsSeparator(s[i])
    ensures p + 2 < |s|
    ensures IsGroup(s[..p + 2])
    ensures IsSubtype(s[p + 2..])
  {
    SubtypeLetters(s);
    assert q - p >= 3;
    assert !IsSeparator(s[p + 1]) && !IsSeparator(s[p + 2]);
    var b := s[..p + 2];
    assert IsLetters(b[..p]) by {
      forall i | 0 <= i < p ensures IsLetter(b[..p][i]) { assert b[..p][i] == s[i]; }
    }
    assert IsLetters(b[p + 1..]) by { assert b[p + 1..] == [s[p + 1]]; }
    assert InGroupClass(b[p]);
    var rest := s[p + 2..];
    assert forall i | 0 <= i < |rest| :: rest[i] == s[i + p + 2];
  }

  lemma {:induction false} SubtypeIsGroups(s: string)
    requires IsSubtype(s)
    ensures IsGroups(s)
    decreases |s|
  {
    var p := FirstSeparator(s);
    if q :| p < q < |s| && IsSeparator(s[q]) {
      SubtypeSplits(s, p, q);
      SubtypeIsGroups(s[p + 2..]);
    } else {
      SubtypeSingleGroup(s, p);
      assert s[..|s|] == s;
    }
  }

  /** The repeated group of the pattern accepts exactly the subtypes. */
  lemma GroupsIff(s: string)
    ensures IsGroups(s) <==> IsSubtype(s)
  {
    if IsGroups(s) { GroupsAreSubtype(s); }
    if IsSubtype(s) { SubtypeIsGroups(s); }
  }

  /** A media type as the pattern accepts it: letters, one '/', a subtype. */
  predicate IsMediaType(v: string) {
    exists k | 1 <= k < |v| :: IsLetters(v[..k]) && v[k] == '/' && IsSubtype(v[k + 1..])
  }

  /** The anchored pattern accepts exactly the media types. */
  lemma MatchesIff(v: string)
    ensures Matches(v) <==> IsMediaType(v)
  {
    forall j | 2 <= j <= |v| ensures IsGroups(v[j..]) <==> IsSubtype(v[j..]) {
      GroupsIff(v[j..]);
    }
  }
}
