/** Repository names of the form owner/name. */
module RepositoryRef {
  import opened Base
  import opened Strings

  datatype Ref = Ref(owner: string, name: string)

  predicate IsAlphanumeric(c: char) {
    'A' <= c <= 'Z' || 'a' <= c <= 'z' || '0' <= c <= '9'
  }

  predicate IsNameChar(c: char) {
    IsAlphanumeric(c) || c == '.' || c == '_' || c == '-'
  }

  /** The owner pattern: one alphanumeric, then alphanumerics each of which may have
      one hyphen in front. */
  predicate MatchesOwner(s: string) {
    s != "" && IsAlphanumeric(s[0]) && MatchesGroups(s[1..])
  }

  predicate MatchesGroups(s: string) {
    || s == ""
    || (IsAlphanumeric(s[0]) && MatchesGroups(s[1..]))
    || (|s| > 1 && s[0] == '-' && IsAlphanumeric(s[1]) && MatchesGroups(s[2..]))
  }

  predicate ValidOwner(owner: string) {
    |owner| <= 39 && MatchesOwner(owner)
  }

  predicate ValidName(name: string) {
    1 <= |name| <= 100 && forall i :: 0 <= i < |name| ==> IsNameChar(name[i])
  }

  predicate Valid(r: Ref) {
    ValidOwner(r.owner) && ValidName(r.name)
  }

  function ParseRef(raw: string): Option<Ref> {
    match CutAt(raw, '/')
    case None => None
    case Some(p) => if ValidOwner(p.0) && ValidName(p.1) then Some(Ref(p.0, p.1)) else None
  }

  function ToString(r: Ref): string {
    Join(r.owner, '/', r.name)
  }

  /** The pattern accepts exactly the non-empty strings of alphanumerics and hyphens
      that neither start nor end with a hyphen and have no two in a row. */
  lemma OwnerPatternMeans(s: string)
    ensures MatchesOwner(s) <==>
            && s != "" && s[0] != '-' && s[|s| - 1] != '-'
            && (forall i :: 0 <= i < |s| ==> IsAlphanumeric(s[i]) || s[i] == '-')
            && (forall i :: 0 <= i < |s| - 1 ==> !(s[i] == '-' && s[i + 1] == '-'))
  {
    if s != "" {
      var t := s[1..];
      GroupsMean(t);
      if MatchesOwner(s) {
        assert forall i :: 0 < i < |s| ==> s[i] == t[i - 1];
        assert forall i :: 0 < i < |s| - 1 ==> s[i] == t[i - 1] && s[i + 1] == t[i];
      }
    }
  }

  ghost predicate Grouped(s: string) {
    && (forall i :: 0 <= i < |s| ==> IsAlphanumeric(s[i]) || s[i] == '-')
    && (forall i :: 0 <= i < |s| - 1 ==> !(s[i] == '-' && s[i + 1] == '-'))
    && (s != "" ==> s[|s| - 1] != '-')
  }

  lemma {:induction false} GroupsMean(s: string)
    ensures MatchesGroups(s) <==> Grouped(s)
  {
    if s == "" {
    } else if s[0] == '-' {
      if |s| > 1 {
        GroupsMean(s[2..]);
        GroupedTail(s);
        GroupedTail(s[1..]);
        assert s[1..][1..] == s[2..];
      }
    } else {
      GroupsMean(s[1..]);
      GroupedTail(s);
    }
  }

  /** Grouped, one character at a time. */
  lemma GroupedTail(s: string)
    requires s != ""
    ensures Grouped(s) <==>
            && (IsAlphanumeric(s[0]) || s[0] == '-') && Grouped(s[1..])
            && (s[0] == '-' ==> |s| > 1 && s[1] != '-')
  {
    var t := s[1..];
    assert forall i :: 0 <= i < |t| ==> t[i] == s[i + 1];
    if Grouped(t) {
      assert forall i :: 0 < i < |s| ==> s[i] == t[i - 1];
      assert forall i :: 0 < i < |s| - 1 ==> s[i] == t[i - 1] && s[i + 1] == t[i];
    }
  }

  lemma OwnerHasNoSlash(owner: string)
    requires ValidOwner(owner)
    ensures '/' !in owner
  {
    OwnerPatternMeans(owner);
  }

  /** Parsing accepts exactly the texts of valid references and undoes ToString. */
  lemma ParseUndoesToString(r: Ref)
    ensures Valid(r) ==> ParseRef(ToString(r)) == Some(r)
  {
    if Valid(r) {
      OwnerHasNoSlash(r.owner);
      var s := ToString(r);
      assert s[..|r.owner|] == r.owner && s[|r.owner| + 1..] == r.name;
      CutIs(s, '/', |r.owner|);
    }
  }

  lemma ToStringUndoesParse(raw: string)
    ensures ParseRef(raw).Some? ==> Valid(ParseRef(raw).value) && ToString(ParseRef(raw).value) == raw
    ensures ParseRef(raw).None? ==> forall r: Ref :: Valid(r) ==> ToString(r) != raw
  {
    CutUndone(raw, '/');
    forall r: Ref | Valid(r) ensures ParseRef(raw).None? ==> ToString(r) != raw {
      ParseUndoesToString(r);
    }
  }

  predicate IsLetterOrDigit(c: char) {
    c in CAPITALS || c in SMALL_LETTERS || c in DIGITS
  }

  lemma AlphanumericsAre(c: char)
    ensures IsAlphanumeric(c) <==> IsLetterOrDigit(c)
  {
    hide CAPITALS, SMALL_LETTERS;
    CapitalsAre(c);
    LettersAre(c);
  }

  /** The accepted owners and names: up to 39 letters, digits and hyphens, hyphens only
      single and inside, and up to 100 letters, digits, dots, underscores and hyphens. */
  lemma ValidRefsAre(r: Ref)
    ensures ParseRef(ToString(r)) == Some(r) <==>
            && 1 <= |r.owner| <= 39 && r.owner[0] != '-' && r.owner[|r.owner| - 1] != '-'
            && (forall i :: 0 <= i < |r.owner| ==> IsLetterOrDigit(r.owner[i]) || r.owner[i] == '-')
            && (forall i :: 0 <= i < |r.owner| - 1 ==> !(r.owner[i] == '-' && r.owner[i + 1] == '-'))
            && 1 <= |r.name| <= 100
            && (forall i :: 0 <= i < |r.name| ==> IsLetterOrDigit(r.name[i]) || r.name[i] in "._-")
  {
    hide IsLetterOrDigit, IsAlphanumeric, MatchesOwner;
    ParseUndoesToString(r);
    ToStringUndoesParse(ToString(r));
    OwnerPatternMeans(r.owner);
    forall c ensures IsAlphanumeric(c) <==> IsLetterOrDigit(c) {
      AlphanumericsAre(c);
    }
  }

  lemma ToStringIsInjective(a: Ref, b: Ref)
    requires Valid(a) && Valid(b)
    ensures ToString(a) == ToString(b) <==> a == b
  {
    ParseUndoesToString(a);
    ParseUndoesToString(b);
  }
}
