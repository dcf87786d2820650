/**
 * Composite identifiers of association resources: two component ids joined
 * by a single colon, split again on the FIRST colon only, so the second
 * component may itself contain colons.
 */
module CompositeId {

  const Separator: char := ':'

  /** buildCompositeID: `a`, then the separator, then `b`. */
  function BuildCompositeId(a: string, b: string): (id: string)
    ensures |id| == |a| + 1 + |b|
    ensures id[..|a|] == a && id[|a|] == Separator && id[|a| + 1..] == b
    ensures Separator in id
  {
    a + [Separator] + b
  }

  /** Index of the first separator in `s`. */
  function FirstSeparator(s: string): (i: nat)
    requires Separator in s
    ensures i < |s| && s[i] == Separator
    ensures Separator !in s[..i]
  {
    if s[0] == Separator then 0
    else
      assert Separator in s[1..] by { assert s == [s[0]] + s[1..]; }
      var j := FirstSeparator(s[1..]);
      assert s[..j + 1] == [s[0]] + s[1..][..j];
      1 + j
  }

  /**
   * parseCompositeID: the parts before and after the first separator.
   * The source indexes the second part unconditionally, so an id with no
   * separator is outside its domain.
   */
  function ParseCompositeId(id: string): (parts: (string, string))
    requires Separator in id
    ensures id == parts.0 + [Separator] + parts.1
    ensures Separator !in parts.0
  {
    var i := FirstSeparator(id);
    assert id == id[..i] + [Separator] + id[i + 1..];
    (id[..i], id[i + 1..])
  }

  /** Splitting on the first separator is the only split whose left part has no separator. */
  lemma SplitIsUnique(id: string, a: string, b: string)
    requires id == a + [Separator] + b
    requires Separator !in a
    ensures ParseCompositeId(id) == (a, b)
  {
    var i := FirstSeparator(id);
    assert id[|a|] == Separator;
    assert i == |a| by {
      assert id[..|a|] == a;
    }
    assert id[..i] == a;
    assert id[i + 1..] == b;
  }

  /** Parsing a built id gives back both components when the first has no colon. */
  lemma RoundTrip(a: string, b: string)
    requires Separator !in a
    ensures ParseCompositeId(BuildCompositeId(a, b)) == (a, b)
  {
  }

  /** Building from the parsed parts restores the id. */
  lemma ParseThenBuild(id: string)
    requires Separator in id
    ensures BuildCompositeId(ParseCompositeId(id).0, ParseCompositeId(id).1) == id
  {
  }

  /** A colon in the first component is lost: the split moves to that colon. */
  lemma ColonInFirstComponent(a1: string, a2: string, b: string)
    requires Separator !in a1
    ensures ParseCompositeId(BuildCompositeId(a1 + [Separator] + a2, b)) == (a1, a2 + [Separator] + b)
  {
    var id := BuildCompositeId(a1 + [Separator] + a2, b);
    assert id == a1 + [Separator] + (a2 + [Separator] + b);
    SplitIsUnique(id, a1, a2 + [Separator] + b);
  }

  /** The second component keeps its colons. */
  lemma SecondComponentKeepsColons()
    ensures ParseCompositeId("pipeline:app:web") == ("pipeline", "app:web")
  {
    SplitIsUnique("pipeline:app:web", "pipeline", "app:web");
  }
}
