/** The active-section tracker: when a page section becomes visible, the nav
    links pointing at it get the `active` class and every other link loses it.
    The links are the page's `.nav-link` elements, in document order. */
module SectionTracker {

  const Active := "active"

  /** Option of a string, for an attribute that may be absent. */
  datatype Attr = Absent | Present(value: string)

  /** A nav link: its `href` attribute and its class list. */
  datatype NavLink = NavLink(href: Attr, classes: set<string>)

  /** One entry handed to the observer callback: its `isIntersecting` flag
      (whether the section intersects the viewport at all when the entry is
      reported), and the section's `id`. */
  datatype ObserverEntry = ObserverEntry(isIntersecting: bool, targetId: string)

  predicate IsActive(link: NavLink) {
    Active in link.classes
  }

  /** The link targets section `id` exactly when its `href` is `#id`. */
  predicate Targets(link: NavLink, id: string) {
    link.href == Present("#" + id)
  }

  /** The per-link step of the callback. */
  function MarkLink(link: NavLink, id: string): NavLink {
    if Targets(link, id) then link.(classes := link.classes + {Active})
    else link.(classes := link.classes - {Active})
  }

  /** Marking for section `id`: a link ends up active exactly when it targets
      `id`; hrefs, order and every other class are untouched. */
  function MarkLinks(links: seq<NavLink>, id: string): (r: seq<NavLink>)
    ensures |r| == |links|
    ensures forall i :: 0 <= i < |r| ==> (IsActive(r[i]) <==> Targets(links[i], id))
    ensures forall i :: 0 <= i < |r| ==> r[i].href == links[i].href
    ensures forall i :: 0 <= i < |r| ==> r[i].classes - {Active} == links[i].classes - {Active}
  {
    seq(|links|, i requires 0 <= i < |links| => MarkLink(links[i], id))
  }

  /** One callback entry: only an intersecting entry marks links. */
  function Step(links: seq<NavLink>, entry: ObserverEntry): seq<NavLink> {
    if entry.isIntersecting then MarkLinks(links, entry.targetId) else links
  }

  /** The callback over its entries, in order. */
  function ProcessEntries(links: seq<NavLink>, entries: seq<ObserverEntry>): seq<NavLink>
    decreases |entries|
  {
    if entries == [] then links
    else Step(ProcessEntries(links, entries[..|entries| - 1]), entries[|entries| - 1])
  }

  /** The id of the last intersecting entry, if any. */
  function LastIntersecting(entries: seq<ObserverEntry>): Attr
    decreases |entries|
  {
    if entries == [] then Absent
    else if entries[|entries| - 1].isIntersecting then Present(entries[|entries| - 1].targetId)
    else LastIntersecting(entries[..|entries| - 1])
  }

  /** A later marking fully overrides an earlier one. */
  lemma MarkLinksOverrides(links: seq<NavLink>, a: string, b: string)
    ensures MarkLinks(MarkLinks(links, a), b) == MarkLinks(links, b)
  {
    var l1 := MarkLinks(MarkLinks(links, a), b);
    var l2 := MarkLinks(links, b);
    assert |l1| == |l2|;
    forall i | 0 <= i < |l1|
      ensures l1[i] == l2[i]
    {
      assert l1[i].classes - {Active} == l2[i].classes - {Active};
      assert Active in l1[i].classes <==> Active in l2[i].classes;
    }
  }

  /** After a callback, the last intersecting entry decides the marking:
      a link is active exactly when it targets that section. A callback with
      no intersecting entry changes nothing. */
  lemma {:induction false} LastIntersectingWins(links: seq<NavLink>, entries: seq<ObserverEntry>)
    ensures LastIntersecting(entries) == Absent ==> ProcessEntries(links, entries) == links
    ensures LastIntersecting(entries).Present? ==>
              ProcessEntries(links, entries) == MarkLinks(links, LastIntersecting(entries).value)
    decreases |entries|
  {
    if entries != [] {
      var init := entries[..|entries| - 1];
      var last := entries[|entries| - 1];
      LastIntersectingWins(links, init);
      if last.isIntersecting {
        if LastIntersecting(init).Present? {
          MarkLinksOverrides(links, LastIntersecting(init).value, last.targetId);
        }
      }
    }
  }

  /** The observer callback run on the page's links in place. */
  method OnIntersections(links: array<NavLink>, entries: seq<ObserverEntry>)
    modifies links
    ensures links[..] == ProcessEntries(old(links[..]), entries)
  {
    var k := 0;
    while k < |entries|
      invariant 0 <= k <= |entries|
      invariant links[..] == ProcessEntries(old(links[..]), entries[..k])
    {
      var entry := entries[k];
      assert entries[..k + 1][..k] == entries[..k];
      if entry.isIntersecting {
        var id := entry.targetId;
        ghost var before := links[..];
        var j := 0;
        while j < links.Length
          invariant 0 <= j <= links.Length
          invariant links[..j] == MarkLinks(before, id)[..j]
          invariant links[j..] == before[j..]
        {
          links[j] := MarkLink(links[j], id);
          j := j + 1;
        }
        assert links[..] == links[..links.Length];
      }
      k := k + 1;
    }
    assert entries[..|entries|] == entries;
  }
}
