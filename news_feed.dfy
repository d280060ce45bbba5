/** The news widget: `data/news.json` is fetched once, and its `entries`
    are rendered into the news grid as cards, in order, or the grid shows a
    "no data" or an error message instead. */
module NewsFeed {
  import opened Json

  /** Each card's animation delay grows by this many milliseconds. */
  const DelayStep := 100
  const DefaultAlt := "Berita"
  const DefaultTag := "Berita"
  const DefaultTitle := "Judul Berita"

  /** Where the "read more" link opens. */
  datatype Target = Blank | Self

  datatype ReadMore = NoLink | Link(href: string, target: Target)

  /** The description of one news card: its `data-aos-delay`, the image's
      `src` and `alt`, the tag, title and excerpt texts, and the optional
      "read more" link. Class names and markup are fixed and not recorded. */
  datatype Card = Card(
    aosDelay: nat,
    imageSrc: string,
    imageAlt: string,
    tag: string,
    title: string,
    excerpt: string,
    readMore: ReadMore)

  /** A computation that ran to completion, or threw a TypeError. */
  datatype Outcome<T> = Thrown | Done(value: T)

  /** `item.key` on an item that is not null. */
  function Field(item: Json, key: string): Prop
    requires item != JNull && key in ScriptKeys
  {
    Get(item, key).prop
  }

  /** A truthy `link` that is not a JSON string (a number, an array, an
      object, or the built-in `link` method of a string entry) has no
      `startsWith` method, so calling it throws. */
  predicate LinkThrows(link: Prop) {
    TruthyProp(link) && !(link.Defined? && link.value.JStr?)
  }

  /** `buildCard(item, index)` throws: the entry is null, one of the texts it
      writes cannot be converted to a string, or its link has no
      `startsWith`. */
  predicate CardThrows(item: Json) {
    || item == JNull
    || OrElseThrows(Field(item, "image"))
    || OrElseThrows(Field(item, "title"))
    || OrElseThrows(Field(item, "tag"))
    || OrElseThrows(Field(item, "excerpt"))
    || LinkThrows(Field(item, "link"))
  }

  /** `buildCard(item, index)`. It throws exactly as `CardThrows` says, in
      particular for every string entry; otherwise every text falls back to
      its default when the field is falsy. */
  function BuildCard(item: Json, index: nat): (r: Outcome<Card>)
    ensures r.Thrown? <==> CardThrows(item)
    ensures item.JStr? ==> r.Thrown?
    ensures r.Done? ==> r.value.aosDelay == index * DelayStep
    ensures r.Done? ==> r.value.imageSrc == OrElse(Field(item, "image"), "")
    ensures r.Done? ==> r.value.imageAlt == OrElse(Field(item, "title"), DefaultAlt)
    ensures r.Done? ==> r.value.tag == OrElse(Field(item, "tag"), DefaultTag)
    ensures r.Done? ==> r.value.title == OrElse(Field(item, "title"), DefaultTitle)
    ensures r.Done? ==> r.value.excerpt == OrElse(Field(item, "excerpt"), "")
    ensures r.Done? ==> (r.value.readMore.Link? <==> TruthyProp(Field(item, "link")))
    ensures r.Done? && r.value.readMore.Link? ==>
              && Field(item, "link") == Defined(JStr(r.value.readMore.href))
              && (r.value.readMore.target == Blank <==> StartsWith(r.value.readMore.href, "http"))
  {
    // The statements of the source, in order; any TypeError ends the build.
    if item == JNull then Thrown
    else if OrElseThrows(Field(item, "image")) then Thrown      // image.src
    else if OrElseThrows(Field(item, "title")) then Thrown      // image.alt
    else if OrElseThrows(Field(item, "tag")) then Thrown        // tag text
    else if OrElseThrows(Field(item, "excerpt")) then Thrown    // excerpt text
    else
      var link := Field(item, "link");
      if LinkThrows(link) then Thrown                           // startsWith
      else
        var readMore :=
          if TruthyProp(link) then
            Link(link.value.s, if StartsWith(link.value.s, "http") then Blank else Self)
          else NoLink;
        Done(Card(
          aosDelay := index * DelayStep,
          imageSrc := OrElse(Field(item, "image"), ""),
          imageAlt := OrElse(Field(item, "title"), DefaultAlt),
          tag := OrElse(Field(item, "tag"), DefaultTag),
          title := OrElse(Field(item, "title"), DefaultTitle),
          excerpt := OrElse(Field(item, "excerpt"), ""),
          readMore := readMore))
  }

  /** An entry whose title is an object with its own `toString` key cannot be
      built. */
  lemma OwnToStringTitleThrows(item: Json, index: nat)
    requires item.JObj? && "title" in item.fields
    requires item.fields["title"].JObj? && "toString" in item.fields["title"].fields
    ensures BuildCard(item, index).Thrown?
  {
  }

  /** Building the cards of `entries` one after the other, as the `forEach`
      does: it completes exactly when every entry builds, and then card i is
      built from entry i at index i. */
  function BuildCards(entries: seq<Json>): (r: Outcome<seq<Card>>)
    ensures r.Done? <==> forall i :: 0 <= i < |entries| ==> BuildCard(entries[i], i).Done?
    ensures r.Done? ==> |r.value| == |entries|
    ensures r.Done? ==> forall i :: 0 <= i < |entries| ==> r.value[i] == BuildCard(entries[i], i).value
    decreases |entries|
  {
    if entries == [] then Done([])
    else
      var n := |entries| - 1;
      match BuildCards(entries[..n])
      case Thrown => Thrown
      case Done(cards) =>
        match BuildCard(entries[n], n)
        case Thrown => Thrown
        case Done(card) => Done(cards + [card])
  }

  /** `Array.isArray(data?.entries) ? data.entries : []`. */
  function Entries(data: Json): seq<Json>
  {
    var entries := if data == JNull then Undefined else Get(data, "entries").prop;
    if entries.Defined? && entries.value.JArr? then entries.value.items else []
  }

  /** The body of a response: `response.json()` either rejects or yields a
      value. */
  datatype Body = Malformed | Parsed(data: Json)

  /** How the fetch settled: rejected (network failure), or a response with
      its `ok` flag and its body. */
  datatype FetchOutcome = Rejected | Response(ok: bool, body: Body)

  /** A child of the news grid. */
  datatype GridChild = ErrorMessage | EmptyMessage | CardNode(card: Card)

  /** The promise chain fails before the render step: a rejected fetch, a
      non-OK status or a body that does not parse. */
  predicate FetchFailed(outcome: FetchOutcome) {
    outcome.Rejected? || !outcome.ok || outcome.body.Malformed?
  }

  function CardNodes(cards: seq<Card>): (r: seq<GridChild>)
    ensures |r| == |cards|
    ensures forall i :: 0 <= i < |r| ==> r[i] == CardNode(cards[i])
  {
    seq(|cards|, i requires 0 <= i < |cards| => CardNode(cards[i]))
  }

  function CardCount(children: seq<GridChild>): nat
    decreases |children|
  {
    if children == [] then 0
    else CardCount(children[..|children| - 1]) + (if children[|children| - 1].CardNode? then 1 else 0)
  }

  /** The grid's children once the fetch and its continuations have settled.
      A failed fetch, or an entry whose card throws, leaves only the error
      message; no entries leaves only the "no data" message; otherwise the
      grid holds one card per entry, in order, card i delayed by i*100 ms. */
  function RenderNews(outcome: FetchOutcome): (r: seq<GridChild>)
    ensures FetchFailed(outcome) ==> r == [ErrorMessage]
    ensures !FetchFailed(outcome) && Entries(outcome.body.data) == [] ==> r == [EmptyMessage]
    ensures !FetchFailed(outcome) && BuildCards(Entries(outcome.body.data)).Thrown? ==> r == [ErrorMessage]
    ensures !FetchFailed(outcome) && Entries(outcome.body.data) != [] && BuildCards(Entries(outcome.body.data)).Done? ==>
              var entries := Entries(outcome.body.data);
              && |r| == |entries|
              && forall i :: 0 <= i < |r| ==>
                   && r[i].CardNode?
                   && r[i] == CardNode(BuildCard(entries[i], i).value)
                   && r[i].card.aosDelay == i * DelayStep
  {
    if FetchFailed(outcome) then [ErrorMessage]
    else
      var entries := Entries(outcome.body.data);
      if entries == [] then [EmptyMessage]
      else
        match BuildCards(entries)
        case Thrown => [ErrorMessage]
        case Done(cards) => CardNodes(cards)
  }

  /** A feed whose only entry is a string renders the error message: the
      string's inherited `link` method is truthy and has no `startsWith`. */
  lemma StringEntryRendersError(text: string)
    ensures RenderNews(Response(true, Parsed(JObj(map["entries" := JArr([JStr(text)])])))) == [ErrorMessage]
  {
    assert BuildCard(JStr(text), 0).Thrown?;
  }

  lemma {:induction false} CardCountOfCards(cards: seq<Card>)
    ensures CardCount(CardNodes(cards)) == |cards|
    decreases |cards|
  {
    if cards != [] {
      var n := |cards| - 1;
      assert CardNodes(cards)[..n] == CardNodes(cards[..n]);
      CardCountOfCards(cards[..n]);
    }
  }

  /** The number of cards rendered: none when anything failed or there are no
      entries, otherwise exactly one per entry. */
  lemma RenderedCardCount(outcome: FetchOutcome)
    ensures FetchFailed(outcome) ==> CardCount(RenderNews(outcome)) == 0
    ensures !FetchFailed(outcome) ==>
              var entries := Entries(outcome.body.data);
              CardCount(RenderNews(outcome)) ==
                if BuildCards(entries).Done? then |entries| else 0
  {
    assert CardCount([ErrorMessage]) == 0 by {
      assert [ErrorMessage][..0] == [];
    }
    assert CardCount([EmptyMessage]) == 0 by {
      assert [EmptyMessage][..0] == [];
    }
    if !FetchFailed(outcome) {
      var entries := Entries(outcome.body.data);
      if entries != [] && BuildCards(entries).Done? {
        CardCountOfCards(BuildCards(entries).value);
      }
    }
  }

  /** A throwing entry makes the whole `forEach` throw. */
  lemma BuildCardsThrows(entries: seq<Json>, i: nat)
    requires i < |entries| && BuildCard(entries[i], i).Thrown?
    ensures BuildCards(entries).Thrown?
  {
  }

  /** A built card extends the cards of the prefix before it. */
  lemma BuildCardsExtend(entries: seq<Json>, i: nat)
    requires i < |entries| && BuildCards(entries[..i]).Done?
    requires BuildCard(entries[i], i).Done?
    ensures BuildCards(entries[..i + 1]) == Done(BuildCards(entries[..i]).value + [BuildCard(entries[i], i).value])
  {
    var prefix := entries[..i + 1];
    assert prefix[..i] == entries[..i];
    assert prefix[i] == entries[i];
  }

  /** The news grid, whose children the fetch continuation replaces. */
  class NewsGrid {
    var children: seq<GridChild>

    constructor (initialChildren: seq<GridChild>)
      ensures children == initialChildren
    {
      children := initialChildren;
    }

    /** The `.then`/`.catch` continuations, run once the fetch settles. */
    method OnFetchSettled(outcome: FetchOutcome)
      modifies this
      ensures children == RenderNews(outcome)
    {
      if FetchFailed(outcome) {
        children := [ErrorMessage];
        return;
      }
      var entries := Entries(outcome.body.data);
      children := [];
      if |entries| == 0 {
        children := [EmptyMessage];
        return;
      }
      var i := 0;
      while i < |entries|
        invariant 0 <= i <= |entries|
        invariant BuildCards(entries[..i]).Done?
        invariant children == CardNodes(BuildCards(entries[..i]).value)
      {
        var built := BuildCard(entries[i], i);
        if built.Thrown? {
          // The TypeError reaches `.catch`, which replaces the partial grid.
          BuildCardsThrows(entries, i);
          children := [ErrorMessage];
          return;
        }
        BuildCardsExtend(entries, i);
        children := children + [CardNode(built.value)];
        i := i + 1;
      }
      assert entries[..|entries|] == entries;
    }
  }
}
