/** strings.Cut, which cursors and API key entries are read with. */
module Strings {
  import opened Outcomes

  predicate Without(s: string, c: char) {
    forall i :: 0 <= i < |s| ==> s[i] != c
  }

  /** The texts before and after the first sep. */
  function Cut(s: string, sep: char): Option<(string, string)> {
    if s == "" then None
    else if s[0] == sep then Some(("", s[1..]))
    else match Cut(s[1..], sep) case None => None case Some((before, after)) => Some(([s[0]] + before, after))
  }

  lemma {:induction false} CutAtFirst(before: string, sep: char, after: string)
    requires Without(before, sep)
    ensures Cut(before + [sep] + after, sep) == Some((before, after))
  {
    var s := before + [sep] + after;
    if before == "" {
      assert s[1..] == after;
    } else {
      CutAtFirst(before[1..], sep, after);
      assert s[1..] == before[1..] + [sep] + after;
      assert [before[0]] + before[1..] == before;
    }
  }

  lemma {:induction false} CutStops(s: string, sep: char)
    ensures Cut(s, sep).Some? ==> Without(Cut(s, sep).value.0, sep)
    ensures Cut(s, sep).Some? ==> s == Cut(s, sep).value.0 + [sep] + Cut(s, sep).value.1
  {
    if s != "" && s[0] != sep {
      CutStops(s[1..], sep);
    }
  }
}
