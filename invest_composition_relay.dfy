/** The container around the composition editor: it turns the bucket's
    fetched holdings into chunks, gives the editor the bucket's total worth
    and the search results as suggestions, keeps the edited chunks, and
    turns them into the composition-change request. Fetching, the mutation
    round trip and navigation are left to the caller. */
module CompositionRelay {
  import opened Common
  import opened Composition

  datatype QuoteNode = QuoteNode(value: real)
  datatype StockNode = StockNode(id: string, name: string, latestQuote: Option<QuoteNode>)
  /** One holding of the bucket as fetched: its quantity and its stock. */
  datatype ConfigNode = ConfigNode(quantity: real, stock: StockNode)
  /** A connection edge; its node may be missing. */
  datatype Edge = Edge(node: Option<ConfigNode>)
  /** The bucket fragment: id, cash, and the holdings (null when not fetched;
      single edges may be null too). */
  datatype BucketData = BucketData(id: string, available: real, stocks: Option<seq<Option<Edge>>>)
  /** One stock of the profile's search results. */
  datatype SearchItem = SearchItem(id: string, name: string, latestQuote: Option<QuoteNode>)
  /** The profile fragment: the search results, null when not fetched. */
  datatype ProfileData = ProfileData(investSearch: Option<seq<SearchItem>>)

  /** One entry of the composition-change request. */
  datatype ConfigInput = ConfigInput(idValue: string, quantity: real)
  datatype SaveInput = SaveInput(config: seq<ConfigInput>, id: string)

  /** What the editor is rendered with. */
  datatype EditorProps = EditorProps(chunks: seq<Chunk>, total: real, suggestions: seq<Suggestion>)

  /** An edge that is present, has a node, and whose stock has a quote. */
  predicate Priced(e: Option<Edge>)
  {
    e.Some? && e.value.node.Some? && e.value.node.value.stock.latestQuote.Some?
  }

  function ChunkOf(e: Option<Edge>): Chunk
    requires Priced(e)
  {
    var n := e.value.node.value;
    Chunk(n.stock.id, n.stock.name, n.quantity, n.stock.latestQuote.value.value)
  }

  /** The constructor's chunks: one per priced edge, in edge order. */
  function InitialChunks(edges: seq<Option<Edge>>): (r: seq<Chunk>)
    ensures |r| <= |edges|
    ensures (forall i :: 0 <= i < |edges| ==> Priced(edges[i])) ==>
              |r| == |edges| && forall i :: 0 <= i < |edges| ==> r[i] == ChunkOf(edges[i])
  {
    if edges == [] then []
    else
      var last := edges[|edges| - 1];
      InitialChunks(edges[..|edges| - 1]) + (if Priced(last) then [ChunkOf(last)] else [])
  }

  /** What the priced holdings are worth, summed as the render does (an
      unpriced or missing edge adds 0). */
  function HeldValue(edges: seq<Option<Edge>>): real
  {
    if edges == [] then 0.0
    else
      var last := edges[|edges| - 1];
      HeldValue(edges[..|edges| - 1])
      + (if Priced(last) then last.value.node.value.quantity * last.value.node.value.stock.latestQuote.value.value
         else 0.0)
  }

  /** The `total` the editor is given: the bucket's cash plus its holdings. */
  function Total(bucket: BucketData): (r: real)
    requires bucket.stocks.Some?
    ensures r == bucket.available + Invested(InitialChunks(bucket.stocks.value))
  {
    InitialChunksWorthHeldValue(bucket.stocks.value);
    bucket.available + HeldValue(bucket.stocks.value)
  }

  /** The initial chunks are worth exactly what the render counts as held. */
  lemma {:induction false} InitialChunksWorthHeldValue(edges: seq<Option<Edge>>)
    ensures Invested(InitialChunks(edges)) == HeldValue(edges)
  {
    if edges != [] {
      var init := edges[..|edges| - 1];
      var last := edges[|edges| - 1];
      InitialChunksWorthHeldValue(init);
      if Priced(last) {
        InvestedAppend(InitialChunks(init), ChunkOf(last));
      } else {
        assert InitialChunks(edges) == InitialChunks(init);
      }
    }
  }

  /** Opened on a freshly fetched bucket, the editor shows the bucket's own
      cash as available. */
  lemma {:induction false} OpeningShowsBucketCash(bucket: BucketData)
    requires bucket.stocks.Some?
    ensures Available(Total(bucket), InitialChunks(bucket.stocks.value)) == bucket.available
  {
    InitialChunksWorthHeldValue(bucket.stocks.value);
  }

  /** The suggestions the editor gets: each search result with its latest
      price, or 0 when it has none. */
  function Suggestions(items: seq<SearchItem>): (r: seq<Suggestion>)
    ensures |r| == |items|
    ensures forall i :: 0 <= i < |items| ==>
              r[i].id == items[i].id && r[i].name == items[i].name
              && (items[i].latestQuote.None? ==> r[i].value == 0.0)
              && (items[i].latestQuote.Some? ==> r[i].value == items[i].latestQuote.value.value)
  {
    seq(|items|, i requires 0 <= i < |items| =>
      Suggestion(items[i].id, items[i].name,
                 if items[i].latestQuote.Some? then items[i].latestQuote.value.value else 0.0))
  }

  /** The editor picks the first search result named like the search text,
      with its price; an unquoted result is offered at price 0. */
  lemma {:induction false} SelectionFollowsSearch(items: seq<SearchItem>, text: string)
    ensures var r := SelectedStock(Suggestions(items), text);
            && (r.None? <==> forall i :: 0 <= i < |items| ==> items[i].name != text)
            && (r.Some? ==> exists i :: 0 <= i < |items| && items[i].name == text
                              && (forall j :: 0 <= j < i ==> items[j].name != text)
                              && r.value.id == items[i].id
                              && r.value.value == (if items[i].latestQuote.Some? then items[i].latestQuote.value.value else 0.0))
  {
    var s := Suggestions(items);
    var r := SelectedStock(s, text);
    assert forall i :: 0 <= i < |items| ==> s[i].name == items[i].name;
    if r.Some? {
      var i :| 0 <= i < |s| && s[i] == r.value && r.value.name == text
               && forall j :: 0 <= j < i ==> s[j].name != text;
      assert items[i].name == text;
    }
  }

  /** `saveChunks`: the request lists each chunk's stock id and quantity, in
      order, for this bucket. */
  function SaveRequest(bucketId: string, chunks: seq<Chunk>): (r: SaveInput)
    ensures r.id == bucketId && |r.config| == |chunks|
    ensures forall i :: 0 <= i < |chunks| ==>
              r.config[i].idValue == chunks[i].id && r.config[i].quantity == chunks[i].quantity
  {
    SaveInput(seq(|chunks|, i requires 0 <= i < |chunks| => ConfigInput(chunks[i].id, chunks[i].quantity)), bucketId)
  }

  /** The bucket's holdings as the server keeps them: stock id and quantity
      of each priced edge, in order. */
  function Holdings(edges: seq<Option<Edge>>): seq<ConfigInput>
  {
    if edges == [] then []
    else
      var last := edges[|edges| - 1];
      Holdings(edges[..|edges| - 1])
      + (if Priced(last) then [ConfigInput(last.value.node.value.stock.id, last.value.node.value.quantity)] else [])
  }

  /** Saving without editing asks for the holdings the bucket already has. */
  lemma {:induction false} SaveRepeatsHoldings(id: string, edges: seq<Option<Edge>>)
    ensures SaveRequest(id, InitialChunks(edges)).config == Holdings(edges)
  {
    if edges != [] {
      var init := edges[..|edges| - 1];
      SaveRepeatsHoldings(id, init);
      var a := InitialChunks(init);
      var b := InitialChunks(edges);
      assert b[..|a|] == a;
      var r := SaveRequest(id, b).config;
      assert r[..|a|] == SaveRequest(id, a).config;
    }
  }

  /** The render: nothing until both the search results and the holdings
      have been fetched; then the editor with the current chunks, the total
      worth and the suggestions. */
  function Render(bucket: BucketData, profile: ProfileData, chunks: seq<Chunk>): (r: Option<EditorProps>)
    ensures r.None? <==> profile.investSearch.None? || bucket.stocks.None?
    ensures r.Some? ==> r.value.chunks == chunks && r.value.total == Total(bucket)
                        && r.value.suggestions == Suggestions(profile.investSearch.value)
  {
    if profile.investSearch.None? || bucket.stocks.None? then None
    else Some(EditorProps(chunks, Total(bucket), Suggestions(profile.investSearch.value)))
  }

  class InvestCompositionRelay {
    const bucket: BucketData
    const profile: ProfileData
    /** The `chunks` state: the composition being edited. */
    var chunks: seq<Chunk>

    /** The constructor reads the holdings unguarded, so they must have
        been fetched. */
    constructor (bucket: BucketData, profile: ProfileData)
      requires bucket.stocks.Some?
      ensures this.bucket == bucket && this.profile == profile
      ensures chunks == InitialChunks(bucket.stocks.value)
      ensures Available(Total(bucket), chunks) == bucket.available
    {
      this.bucket, this.profile := bucket, profile;
      chunks := InitialChunks(bucket.stocks.value);
      OpeningShowsBucketCash(bucket);
    }

    /** `updateChunks`, the editor's `chunkUpdate`: the edited list replaces
        the state. */
    method UpdateChunks(edited: seq<Chunk>)
      modifies this`chunks
      ensures chunks == edited
    {
      chunks := edited;
    }

    /** `save`: the request for the current chunks (sending it and leaving
        the page are outside the model). */
    method Save() returns (request: SaveInput)
      ensures request == SaveRequest(bucket.id, chunks)
      ensures request.id == bucket.id && |request.config| == |chunks|
    {
      request := SaveRequest(bucket.id, chunks);
    }

    /** Renders the editor and lets it report its first change back through
        `chunkUpdate`: after a stock is added the state holds the added
        chunk and no cash is left. */
    method AddThroughEditor(text: string) returns (dialog: InvestComposition?)
      requires bucket.stocks.Some?
      requires var s := SelectedStock(Suggestions(if profile.investSearch.Some? then profile.investSearch.value else []), text);
               s.Some? ==> s.value.value != 0.0
      modifies this`chunks
      ensures dialog == null <==> profile.investSearch.None?
      ensures dialog != null && SelectedStock(Suggestions(profile.investSearch.value), text).Some? ==>
                |chunks| == |old(chunks)| + 1 && chunks[..|old(chunks)|] == old(chunks)
                && Available(Total(bucket), chunks) == 0.0
      ensures dialog == null || SelectedStock(Suggestions(profile.investSearch.value), text).None? ==>
                chunks == old(chunks)
    {
      var props := Render(bucket, profile, chunks);
      if props.None? {
        return null;
      }
      dialog := new InvestComposition(props.value.chunks, props.value.total, props.value.suggestions);
      dialog.EditText(text);
      dialog.AddStock();
      if |dialog.updates| > 0 {
        UpdateChunks(dialog.updates[|dialog.updates| - 1]);
      }
    }
  }
}
