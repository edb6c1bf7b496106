/** Joining strings with a separator, and the cut and the split that undo it. */
module Strings {
  import opened Base

  function Join(a: string, sep: char, b: string): string {
    a + [sep] + b
  }

  lemma JoinIsInjective(a: string, b: string, a': string, b': string, sep: char)
    requires sep !in a && sep !in a'
    ensures Join(a, sep, b) == Join(a', sep, b') <==> a == a' && b == b'
  {
    var s, s' := Join(a, sep, b), Join(a', sep, b');
    if s == s' {
      assert s[|a|] == sep && s'[|a'|] == sep;
      assert forall i :: 0 <= i < |a| ==> s[i] == a[i] && s[i] != sep;
      assert forall i :: 0 <= i < |a'| ==> s'[i] == a'[i] && s'[i] != sep;
      assert |a| == |a'|;
      assert a == s[..|a|] && a' == s'[..|a'|];
      assert b == s[|a| + 1..] && b' == s'[|a'| + 1..];
    }
  }

  /** Splits at the first separator, if there is one. */
  function CutAt(s: string, sep: char): Option<(string, string)> {
    if s == "" then None
    else if s[0] == sep then Some(("", s[1..]))
    else
      match CutAt(s[1..], sep)
      case None => None
      case Some(p) => Some(([s[0]] + p.0, p.1))
  }

  lemma {:induction false} CutIs(s: string, sep: char, i: nat)
    requires i < |s| && s[i] == sep && sep !in s[..i]
    ensures CutAt(s, sep) == Some((s[..i], s[i + 1..]))
  {
    if i > 0 {
      assert s[0] == s[..i][0];
      assert s[1..][..i - 1] == s[..i][1..] && s[..i] == [s[0]] + s[1..][..i - 1];
      assert s[1..][i..] == s[i + 1..];
      CutIs(s[1..], sep, i - 1);
    }
  }

  lemma {:induction false} CutUndone(s: string, sep: char)
    ensures match CutAt(s, sep)
            case None => sep !in s
            case Some(p) => s == Join(p.0, sep, p.1) && sep !in p.0
  {
    if s != "" {
      CutUndone(s[1..], sep);
    }
  }

  lemma {:induction false} NoCut(s: string, sep: char)
    requires sep !in s
    ensures CutAt(s, sep) == None
  {
    if s != "" {
      NoCut(s[1..], sep);
    }
  }

  /** All the pieces between separators; a string without one is its only piece. */
  function Split(s: string, sep: char): (parts: seq<string>)
    ensures parts != []
    decreases |s|
  {
    match CutAt(s, sep)
    case None => [s]
    case Some(p) => CutUndone(s, sep); [p.0] + Split(p.1, sep)
  }

  lemma SplitOfJoin(a: string, sep: char, b: string)
    requires sep !in a
    ensures Split(Join(a, sep, b), sep) == [a] + Split(b, sep)
  {
    var s := Join(a, sep, b);
    assert s[..|a|] == a && s[|a| + 1..] == b;
    CutIs(s, sep, |a|);
  }

  /** A string with more than one piece is its first piece joined to the rest. */
  lemma SplitStep(s: string, sep: char)
    requires |Split(s, sep)| > 1
    ensures CutAt(s, sep).Some?
    ensures var p := CutAt(s, sep).value;
            s == Join(p.0, sep, p.1) && sep !in p.0 && Split(s, sep) == [p.0] + Split(p.1, sep)
  {
    CutUndone(s, sep);
  }

  // ---------------------------------------------------------------------------
  // Letters

  const DIGITS: string := "0123456789"
  const SMALL_LETTERS: string := "abcdefghijklmnopqrstuvwxyz"
  const CAPITALS: string := "ABCDEFGHIJKLMNOPQRSTUVWXYZ"

  lemma LettersAre(c: char)
    ensures 'a' <= c <= 'z' <==> c in SMALL_LETTERS
  {
  }

  lemma CapitalsAre(c: char)
    ensures 'A' <= c <= 'Z' <==> c in CAPITALS
  {
  }
}
