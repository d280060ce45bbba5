/** The partner marquee: a strip that scrolls its children continuously. When
    it has too few children to fill the strip, a deep copy of each child is
    appended once, so the strip can wrap around seamlessly. */
module PartnerMarquee {

  /** Fewer children than this are doubled. */
  const MinChildren := 16

  /** A DOM subtree, described by value. */
  datatype Node =
    | Element(tagName: string, attributes: map<string, string>, children: seq<Node>)
    | Text(data: string)

  /** `cloneNode(true)`: a deep copy, equal to the original as a description. */
  function Clone(n: Node): Node {
    n
  }

  /** The children after the marquee set-up: a short list is followed by a
      copy of itself, so child i repeats child `i % |s|`; a long one is left
      as it is. */
  function Duplicated(s: seq<Node>): (r: seq<Node>)
    ensures |s| < MinChildren ==> |r| == 2 * |s|
    ensures |s| < MinChildren ==> forall i :: 0 <= i < |r| ==> r[i] == s[i % |s|]
    ensures |s| < MinChildren ==> multiset(r) == multiset(s) + multiset(s)
    ensures |s| >= MinChildren ==> r == s
  {
    if |s| < MinChildren then s + s else s
  }

  /** A doubled list is made of two equal halves, the original on the left. */
  lemma DuplicatedHalves(s: seq<Node>)
    requires |s| < MinChildren
    ensures Duplicated(s)[..|s|] == s && Duplicated(s)[|s|..] == s
  {
  }

  /** The marquee element, whose child list the set-up appends to. */
  class Marquee {
    /** The marquee's element children (`children`, not `childNodes`):
        whitespace text between them neither counts toward the threshold nor
        is cloned. */
    var children: seq<Node>

    constructor (initialChildren: seq<Node>)
      ensures children == initialChildren
    {
      children := initialChildren;
    }

    /** Clone every child first, then append the clones one by one. */
    method DuplicateIfShort()
      modifies this
      ensures children == Duplicated(old(children))
    {
      if |children| < MinChildren {
        var original := children;
        var clones := seq(|original|, i requires 0 <= i < |original| => Clone(original[i]));
        var k := 0;
        while k < |clones|
          invariant 0 <= k <= |clones|
          invariant children == old(children) + clones[..k]
        {
          children := children + [clones[k]];
          k := k + 1;
        }
        assert clones == old(children);
        assert clones[..|clones|] == clones;
      }
    }
  }
}
