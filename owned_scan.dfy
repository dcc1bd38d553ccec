/** The owned-token scan of the NFT generator component: the contract's "next token id"
    counter gives a window of recent ids; the ids are probed in ascending order, an id is kept
    when its owner is the connected wallet and its metadata can be read, the scan stops after
    ten hits, and the list is shown newest first. The contract and the HTTP gateway are
    oracles: `Chain` holds what each read returns (`None` when the call throws). */
module OwnedScan {
  import opened JsText
  import Ipfs

  const MaxResults := 10
  /** Window of the scan run when the wallet's list is first loaded. */
  const InitialWindow := 100
  /** Window of the scan run after a successful mint. */
  const RefreshWindow := 20

  const DefaultNamePrefix := "NanoNFT #"
  const DefaultDescription := "AI-generated NFT"
  const DefaultImage := "/icon.png"

  /** A parsed JSON body. Only the three fields the scan reads are kept; a primitive is kept
      with its truthiness, which is all the scan looks at. */
  datatype Json =
    | JNull
    | JPrimitive(truthy: bool)
    | JObject(name: Option<string>, description: Option<string>, image: Option<string>)

  /** What `fetch` gave: a network failure, or a response with its `ok` flag and its body
      (`None` when the body is not JSON). */
  datatype FetchResult = NetworkError | Response(ok: bool, body: Option<Json>)

  /** The outside world as one scan sees it. */
  datatype Chain = Chain(
    balanceOf: Option<nat>,
    nextTokenId: Option<nat>,
    ownerOf: nat -> Option<string>,
    tokenURI: nat -> Option<string>,
    fetch: string -> FetchResult)

  /** The metadata fields a successful read hands to the scan. */
  datatype Metadata = Metadata(name: Option<string>, description: Option<string>, image: Option<string>)

  datatype Token = Token(id: nat, name: string, description: string, image: string)

  /** The external calls a load makes, in order. */
  datatype Call = BalanceOf | NextTokenId | OwnerOf(id: nat) | TokenUri(id: nat) | Fetch(url: string)

  /** `fetchNFTMetadata`: fetch the gateway URL of the token URI; a network failure, a non-2xx
      status, a body that is not JSON, or `null` (reading `.image` of it throws) all give no
      metadata; a falsy primitive is returned but the caller treats it as none. The `image`
      field is rewritten to the gateway like the token URI itself. */
  function FetchMetadata(fetch: string -> FetchResult, tokenUri: string): (m: Option<Metadata>)
    ensures m.Some? ==> fetch(Ipfs.GatewayUrl(tokenUri)).Response? && fetch(Ipfs.GatewayUrl(tokenUri)).ok
    ensures m.Some? && m.value.image.Some? ==> !StartsWith(m.value.image.value, Ipfs.IpfsScheme)
    ensures var f := fetch(Ipfs.GatewayUrl(tokenUri));
      f.NetworkError? || !f.ok || f.body.None? || f.body == Some(JNull) ==> m.None?
    ensures var f := fetch(Ipfs.GatewayUrl(tokenUri));
      f.Response? && f.ok && f.body.Some? && f.body.value.JPrimitive? ==>
        m == (if f.body.value.truthy then Some(Metadata(None, None, None)) else None)
    ensures var f := fetch(Ipfs.GatewayUrl(tokenUri));
      f.Response? && f.ok && f.body.Some? && f.body.value.JObject? ==>
        var o := f.body.value;
        m == Some(Metadata(o.name, o.description,
                           if o.image.Some? then Some(Ipfs.GatewayUrl(o.image.value)) else None))
  {
    match fetch(Ipfs.GatewayUrl(tokenUri))
    case NetworkError => None
    case Response(ok, body) =>
      if !ok then None
      else match body
        case None => None
        case Some(JNull) => None
        case Some(JPrimitive(t)) => if t then Some(Metadata(None, None, None)) else None
        case Some(JObject(n, d, i)) =>
          var image := if i.Some? then Some(RewriteImage(i.value)) else None;
          Some(Metadata(n, d, image))
  }

  /** The `image` field's rewrite, the same rule as for the token URI. */
  function RewriteImage(image: string): (r: string)
    ensures r == Ipfs.GatewayUrl(image)
    ensures !StartsWith(r, Ipfs.IpfsScheme)
  {
    Ipfs.GatewayUrlIdempotent(image);
    Ipfs.GatewayUrl(image)
  }

  function DefaultName(id: nat): string {
    DefaultNamePrefix + NatToString(id)
  }

  /** The list entry for an owned token: each missing or empty field gets its default, so no
      field of an entry is ever empty. */
  function MakeToken(id: nat, m: Metadata): (t: Token)
    ensures t.id == id
    ensures t.name == OrElse(m.name, DefaultName(id))
    ensures t.description == OrElse(m.description, DefaultDescription)
    ensures t.image == OrElse(m.image, DefaultImage)
    ensures t.name != "" && t.description != "" && t.image != ""
    ensures !Truthy(m.name) ==> StartsWith(t.name, DefaultNamePrefix)
  {
    Token(id, OrElse(m.name, DefaultName(id)), OrElse(m.description, DefaultDescription),
          OrElse(m.image, DefaultImage))
  }

  /** An id whose probe adds an entry: its owner is the wallet (compared in lower case), it
      has a non-empty token URI, and its metadata can be read. */
  predicate Qualifies(c: Chain, account: string, id: nat) {
    && c.ownerOf(id).Some?
    && SameAddress(c.ownerOf(id).value, account)
    && Truthy(c.tokenURI(id))
    && FetchMetadata(c.fetch, c.tokenURI(id).value).Some?
  }

  function TokenFor(c: Chain, account: string, id: nat): Token
    requires Qualifies(c, account, id)
  {
    MakeToken(id, FetchMetadata(c.fetch, c.tokenURI(id).value).value)
  }

  datatype Probe = Probe(entries: seq<Token>, calls: seq<Call>)

  /** One pass of the loop body. A throwing `ownerOf` or `tokenURI` ends the pass (the
      exception is caught and the loop continues with the next id). */
  function ProbeToken(c: Chain, account: string, id: nat): (p: Probe)
    ensures |p.calls| >= 1 && p.calls[0] == OwnerOf(id)
    ensures forall k :: 0 <= k < |p.calls| ==> CallWithin(p.calls[k], id, id)
    ensures forall k :: 1 <= k < |p.calls| ==> !p.calls[k].OwnerOf?
    ensures Qualifies(c, account, id) ==> p.entries == [TokenFor(c, account, id)]
    ensures !Qualifies(c, account, id) ==> p.entries == []
  {
    match c.ownerOf(id)
    case None => Probe([], [OwnerOf(id)])
    case Some(owner) =>
      if !SameAddress(owner, account) then Probe([], [OwnerOf(id)])
      else match c.tokenURI(id)
        case None => Probe([], [OwnerOf(id), TokenUri(id)])
        case Some(uri) =>
          if uri == "" then Probe([], [OwnerOf(id), TokenUri(id)])
          else
            var calls := [OwnerOf(id), TokenUri(id), Fetch(Ipfs.GatewayUrl(uri))];
            match FetchMetadata(c.fetch, uri)
            case None => Probe([], calls)
            case Some(m) => Probe([MakeToken(id, m)], calls)
  }

  /** The scan's calls carry ids in `[lo, hi]`; it never asks for the balance or the counter. */
  predicate CallWithin(call: Call, lo: int, hi: int) {
    match call
    case OwnerOf(i) => lo <= i <= hi
    case TokenUri(i) => lo <= i <= hi
    case Fetch(_) => true
    case BalanceOf => false
    case NextTokenId => false
  }

  /** The ids passed to `ownerOf`, in call order. */
  function OwnerProbes(calls: seq<Call>): (r: seq<nat>)
    ensures |r| <= |calls|
  {
    if calls == [] then []
    else OwnerProbes(calls[..|calls| - 1])
         + (match calls[|calls| - 1] case OwnerOf(i) => [i] case _ => [])
  }

  lemma {:induction false} OwnerProbesAppend(a: seq<Call>, b: seq<Call>)
    ensures OwnerProbes(a + b) == OwnerProbes(a) + OwnerProbes(b)
    decreases |b|
  {
    if b == [] {
      assert a + b == a;
    } else {
      assert (a + b)[..|a + b| - 1] == a + b[..|b| - 1];
      OwnerProbesAppend(a, b[..|b| - 1]);
    }
  }

  lemma OwnerProbesOfProbe(p: Probe, id: nat)
    requires |p.calls| >= 1 && p.calls[0] == OwnerOf(id)
    requires forall k :: 1 <= k < |p.calls| ==> !p.calls[k].OwnerOf?
    ensures OwnerProbes(p.calls) == [id]
  {
    var n := |p.calls|;
    if n > 1 {
      OwnerProbesAppend(p.calls[..1], p.calls[1..]);
      assert p.calls == p.calls[..1] + p.calls[1..];
      NoOwnerProbes(p.calls[1..]);
    }
  }

  lemma {:induction false} NoOwnerProbes(calls: seq<Call>)
    requires forall k :: 0 <= k < |calls| ==> !calls[k].OwnerOf?
    ensures OwnerProbes(calls) == []
  {
    if calls != [] {
      NoOwnerProbes(calls[..|calls| - 1]);
    }
  }

  /** The ids of a list of tokens, in list order. */
  function Ids(ts: seq<Token>): seq<nat> {
    seq(|ts|, k requires 0 <= k < |ts| => ts[k].id)
  }

  predicate Ascending(s: seq<nat>) {
    forall j, k :: 0 <= j < k < |s| ==> s[j] < s[k]
  }

  predicate Descending(s: seq<nat>) {
    forall j, k :: 0 <= j < k < |s| ==> s[j] > s[k]
  }

  /** `ownerOf` was called on `start, start + 1, ..., id - 1`, in that order. */
  ghost predicate ProbedUpTo(calls: seq<Call>, start: nat, id: nat) {
    && |OwnerProbes(calls)| + start == id
    && (forall k :: 0 <= k < |OwnerProbes(calls)| ==> OwnerProbes(calls)[k] == start + k)
  }

  ghost predicate CallsWithin(calls: seq<Call>, lo: int, hi: int) {
    forall k :: 0 <= k < |calls| ==> CallWithin(calls[k], lo, hi)
  }

  /** Every token found has an id in `[start, id)`, qualifies, and is its id's entry. */
  ghost predicate FoundSound(c: Chain, account: string, start: nat, id: nat, found: seq<Token>) {
    forall k :: 0 <= k < |found| ==>
      start <= found[k].id < id && Qualifies(c, account, found[k].id)
      && found[k] == TokenFor(c, account, found[k].id)
  }

  /** Every qualifying id in `[start, id)` has been found. */
  ghost predicate FoundComplete(c: Chain, account: string, start: nat, id: nat, found: seq<Token>) {
    forall i :: start <= i < id && Qualifies(c, account, i) ==> i in Ids(found)
  }

  /** What the scan has established once every id in `[start, id)` has been probed. */
  ghost predicate Consistent(c: Chain, account: string, start: nat, id: nat,
                             found: seq<Token>, calls: seq<Call>)
  {
    && start <= id
    && |found| <= MaxResults
    && ProbedUpTo(calls, start, id)
    && CallsWithin(calls, start, id - 1)
    && Ascending(Ids(found))
    && FoundSound(c, account, start, id, found)
    && FoundComplete(c, account, start, id, found)
  }

  /** The state after the loop: what it found (in discovery order), the calls it made, and
      the id at which it stopped. */
  datatype Trace = Trace(found: seq<Token>, calls: seq<Call>, stop: nat)

  /** The scan loop, from id `id` on: it runs while `id <= endId` and fewer than ten tokens
      have been found. */
  function Discover(c: Chain, account: string, id: nat, endId: int,
                    found: seq<Token>, calls: seq<Call>): Trace
    decreases endId - id
  {
    if id > endId || |found| >= MaxResults then Trace(found, calls, id)
    else
      var p := ProbeToken(c, account, id);
      Discover(c, account, id + 1, endId, found + p.entries, calls + p.calls)
  }

  function StartId(next: nat, window: nat): (s: nat)
    ensures s >= 1
  {
    if next - window > 1 then next - window else 1
  }

  /** The scan over the window `[max(1, next - window), next - 1]`, in discovery order. */
  function Scan(c: Chain, account: string, next: nat, window: nat): Trace {
    Discover(c, account, StartId(next, window), next - 1, [], [])
  }

  function Reversed<T>(s: seq<T>): (r: seq<T>)
    ensures |r| == |s|
  {
    if s == [] then [] else Reversed(s[1..]) + [s[0]]
  }

  lemma {:induction false} ReversedAt<T>(s: seq<T>, k: nat)
    requires k < |s|
    ensures Reversed(s)[k] == s[|s| - 1 - k]
  {
    if k < |s| - 1 {
      ReversedAt(s[1..], k);
    }
  }

  lemma ReversedIds(ts: seq<Token>)
    requires Ascending(Ids(ts))
    ensures Descending(Ids(Reversed(ts)))
  {
    forall j, k | 0 <= j < k < |ts|
      ensures Ids(Reversed(ts))[j] > Ids(Reversed(ts))[k]
    {
      ReversedAt(ts, j);
      ReversedAt(ts, k);
      var n := |ts|;
      assert Ids(ts)[n - 1 - k] < Ids(ts)[n - 1 - j];
      assert Ids(Reversed(ts))[j] == Ids(ts)[n - 1 - j];
      assert Ids(Reversed(ts))[k] == Ids(ts)[n - 1 - k];
    }
  }

  lemma StepProbed(calls: seq<Call>, p: Probe, start: nat, id: nat)
    requires ProbedUpTo(calls, start, id)
    requires |p.calls| >= 1 && p.calls[0] == OwnerOf(id)
    requires forall k :: 1 <= k < |p.calls| ==> !p.calls[k].OwnerOf?
    ensures ProbedUpTo(calls + p.calls, start, id + 1)
  {
    OwnerProbesAppend(calls, p.calls);
    OwnerProbesOfProbe(p, id);
  }

  lemma StepCallsWithin(calls: seq<Call>, p: Probe, start: nat, id: nat)
    requires CallsWithin(calls, start, id - 1)
    requires CallsWithin(p.calls, id, id)
    requires start <= id
    ensures CallsWithin(calls + p.calls, start, id)
  {
    var calls' := calls + p.calls;
    forall k | 0 <= k < |calls'| ensures CallWithin(calls'[k], start, id) {
      if k < |calls| {
        assert CallWithin(calls[k], start, id - 1);
      } else {
        assert CallWithin(p.calls[k - |calls|], id, id);
      }
    }
  }

  lemma IdsSnoc(ts: seq<Token>, t: Token)
    ensures Ids(ts + [t]) == Ids(ts) + [t.id]
  {
    assert forall k :: 0 <= k < |ts| ==> (ts + [t])[k] == ts[k];
  }

  lemma StepAscending(found: seq<Token>, t: Token)
    requires Ascending(Ids(found))
    requires forall k :: 0 <= k < |found| ==> found[k].id < t.id
    ensures Ascending(Ids(found + [t]))
  {
    IdsSnoc(found, t);
  }

  lemma StepFound(c: Chain, account: string, start: nat, id: nat, found: seq<Token>)
    requires start <= id
    requires Ascending(Ids(found))
    requires FoundSound(c, account, start, id, found)
    requires FoundComplete(c, account, start, id, found)
    ensures var found' := found + ProbeToken(c, account, id).entries;
      && Ascending(Ids(found'))
      && FoundSound(c, account, start, id + 1, found')
      && FoundComplete(c, account, start, id + 1, found')
  {
    var p := ProbeToken(c, account, id);
    if Qualifies(c, account, id) {
      var t := TokenFor(c, account, id);
      assert p.entries == [t] && t.id == id;
      StepAscending(found, t);
      IdsSnoc(found, t);
      var found' := found + [t];
      assert forall k :: 0 <= k < |found| ==> found'[k] == found[k];
      assert found'[|found|] == t;
    } else {
      assert found + p.entries == found;
    }
  }

  /** One iteration keeps the scan consistent. */
  lemma StepConsistent(c: Chain, account: string, start: nat, id: nat,
                       found: seq<Token>, calls: seq<Call>)
    requires Consistent(c, account, start, id, found, calls)
    requires |found| < MaxResults
    ensures var p := ProbeToken(c, account, id);
      Consistent(c, account, start, id + 1, found + p.entries, calls + p.calls)
  {
    var p := ProbeToken(c, account, id);
    StepProbed(calls, p, start, id);
    StepCallsWithin(calls, p, start, id);
    StepFound(c, account, start, id, found);
  }

  /** The loop, run to its end, keeps the scan consistent and stops only at the end of the
      window or at ten tokens. */
  lemma {:induction false} DiscoverConsistent(c: Chain, account: string, start: nat, id: nat,
                                              endId: int, found: seq<Token>, calls: seq<Call>)
    requires Consistent(c, account, start, id, found, calls)
    requires id <= endId + 1 || (found == [] && calls == [])
    ensures var t := Discover(c, account, id, endId, found, calls);
      && Consistent(c, account, start, t.stop, t.found, t.calls)
      && (t.stop == id || t.stop <= endId + 1)
      && (t.stop <= endId ==> |t.found| == MaxResults)
      && |found| <= |t.found|
    decreases endId - id
  {
    if id > endId || |found| >= MaxResults {
    } else {
      var p := ProbeToken(c, account, id);
      StepConsistent(c, account, start, id, found, calls);
      DiscoverConsistent(c, account, start, id + 1, endId, found + p.entries, calls + p.calls);
    }
  }

  /** The properties of one scan, stated over the calls it makes and the tokens it keeps. */
  lemma ScanProperties(c: Chain, account: string, next: nat, window: nat)
    ensures var t := Scan(c, account, next, window);
      var start, endId := StartId(next, window), next - 1;
      // never more than ten results
      && |t.found| <= MaxResults
      // every call carries an id of the window
      && (forall k :: 0 <= k < |t.calls| ==> CallWithin(t.calls[k], start, endId))
      // ids are probed one by one, ascending from the start of the window
      && (forall k :: 0 <= k < |OwnerProbes(t.calls)| ==> OwnerProbes(t.calls)[k] == start + k)
      // a failing id never stops the scan: only the tenth hit ends it before the window does
      && (|t.found| < MaxResults && start <= endId ==> |OwnerProbes(t.calls)| == endId - start + 1)
      // the tokens kept are exactly the qualifying ids among those probed
      && (forall i :: start <= i < start + |OwnerProbes(t.calls)| ==>
            (i in Ids(t.found) <==> Qualifies(c, account, i)))
      && (forall k :: 0 <= k < |t.found| ==>
            Qualifies(c, account, t.found[k].id) && t.found[k] == TokenFor(c, account, t.found[k].id))
      && Ascending(Ids(t.found))
  {
    var start, endId := StartId(next, window), next - 1;
    assert Consistent(c, account, start, start, [], []);
    DiscoverConsistent(c, account, start, start, endId, [], []);
  }

  /** An empty window (`next <= 1`) makes no call at all. */
  lemma EmptyWindowNoCalls(c: Chain, account: string, next: nat, window: nat)
    requires next <= 1
    ensures Scan(c, account, next, window) == Trace([], [], StartId(next, window))
  {
  }

  lemma ReversedSound(c: Chain, account: string, start: nat, stop: nat, hi: nat, ts: seq<Token>)
    requires FoundSound(c, account, start, stop, ts)
    requires stop <= hi
    ensures FoundSound(c, account, start, hi, Reversed(ts))
  {
    forall k | 0 <= k < |ts|
      ensures start <= Reversed(ts)[k].id < hi && Qualifies(c, account, Reversed(ts)[k].id)
        && Reversed(ts)[k] == TokenFor(c, account, Reversed(ts)[k].id)
    {
      ReversedAt(ts, k);
    }
  }

  /** The list as shown: newest first, at most ten, each an owned token of the window
      `[max(1, next - window), next - 1]` with its metadata. */
  lemma ShownListNewestFirst(c: Chain, account: string, next: nat, window: nat)
    ensures NewestFirst(Reversed(Scan(c, account, next, window).found))
    ensures FoundSound(c, account, StartId(next, window), next, Reversed(Scan(c, account, next, window).found))
  {
    var t := Scan(c, account, next, window);
    var start := StartId(next, window);
    assert Consistent(c, account, start, start, [], []);
    DiscoverConsistent(c, account, start, start, next - 1, [], []);
    ReversedIds(t.found);
    if t.found != [] {
      assert start <= t.found[0].id < t.stop;
      ReversedSound(c, account, start, t.stop, next, t.found);
    }
  }

  lemma DiscoverUnfold(c: Chain, account: string, id: nat, endId: int, found: seq<Token>, calls: seq<Call>)
    requires id <= endId && |found| < MaxResults
    ensures var p := ProbeToken(c, account, id);
      Discover(c, account, id, endId, found, calls)
        == Discover(c, account, id + 1, endId, found + p.entries, calls + p.calls)
  {
  }

  /** The body of the scan loop for one id: `ownerOf`, and for an owned token `tokenURI`, then
      the metadata fetch; the entry pushed, if any, and the calls made. */
  method ProbeOwned(c: Chain, account: string, tokenId: nat) returns (entries: seq<Token>, made: seq<Call>)
    ensures Probe(entries, made) == ProbeToken(c, account, tokenId)
  {
    entries, made := [], [OwnerOf(tokenId)];
    var owner := c.ownerOf(tokenId);
    // a throwing `ownerOf` is caught and the loop goes on with the next id
    if owner.Some? && SameAddress(owner.value, account) {
      made := made + [TokenUri(tokenId)];
      var uri := c.tokenURI(tokenId);
      if Truthy(uri) {
        made := made + [Fetch(Ipfs.GatewayUrl(uri.value))];
        var metadata := FetchMetadata(c.fetch, uri.value);
        if metadata.Some? {
          entries := [MakeToken(tokenId, metadata.value)];
        }
      }
    }
  }

  /** The scan loop as the component runs it: `tokenId` counts up from the start of the
      window, each hit is pushed onto the list, and the list is reversed at the end. */
  method ScanOwned(c: Chain, account: string, next: nat, window: nat)
    returns (tokens: seq<Token>, calls: seq<Call>)
    ensures tokens == Reversed(Scan(c, account, next, window).found)
    ensures calls == Scan(c, account, next, window).calls
  {
    var startId := StartId(next, window);
    var endId := next - 1;
    var list: seq<Token> := [];
    calls := [];
    var tokenId := startId;
    while tokenId <= endId && |list| < MaxResults
      invariant Discover(c, account, tokenId, endId, list, calls) == Scan(c, account, next, window)
      decreases endId - tokenId
    {
      DiscoverUnfold(c, account, tokenId, endId, list, calls);
      var entries, made := ProbeOwned(c, account, tokenId);
      list := list + entries;
      calls := calls + made;
      tokenId := tokenId + 1;
    }
    tokens := Reversed(list);
  }

  /** The outcome of a load: the new list, or `None` when the list is left as it was. */
  datatype Load = Load(tokens: Option<seq<Token>>, calls: seq<Call>)

  /** The balance the initial load goes by: `balanceOf`, or when that call throws the
      creation count from the user statistics (0 when those are absent). */
  function ActualBalance(c: Chain, creationCount: Option<nat>): (b: nat)
    ensures c.balanceOf.Some? ==> b == c.balanceOf.value
    ensures c.balanceOf.None? && creationCount.Some? ==> b == creationCount.value
    ensures c.balanceOf.None? && creationCount.None? ==> b == 0
  {
    match c.balanceOf
    case Some(b) => b
    case None => if creationCount.Some? then creationCount.value else 0
  }

  /** The initial load: a zero balance gives the empty list without probing any id; a failing
      `getNextTokenId` clears the list; otherwise the 100-id scan. */
  function InitialLoad(c: Chain, account: string, creationCount: Option<nat>): (l: Load)
    ensures l.tokens.Some?
    ensures |l.calls| >= 1 && l.calls[0] == BalanceOf
    ensures ActualBalance(c, creationCount) == 0 ==> l == Load(Some([]), [BalanceOf])
    ensures c.nextTokenId.None? ==> l.tokens == Some([])
    ensures ActualBalance(c, creationCount) > 0 && c.nextTokenId.None? ==> l == Load(Some([]), [BalanceOf, NextTokenId])
    ensures ActualBalance(c, creationCount) > 0 && c.nextTokenId.Some? ==>
      var t := Scan(c, account, c.nextTokenId.value, InitialWindow);
      l == Load(Some(Reversed(t.found)), [BalanceOf, NextTokenId] + t.calls)
  {
    if ActualBalance(c, creationCount) == 0 then Load(Some([]), [BalanceOf])
    else match c.nextTokenId
      case None => Load(Some([]), [BalanceOf, NextTokenId])
      case Some(next) =>
        var t := Scan(c, account, next, InitialWindow);
        Load(Some(Reversed(t.found)), [BalanceOf, NextTokenId] + t.calls)
  }

  /** The refresh after a mint: no balance check, the 20-id scan, and a failing
      `getNextTokenId` leaves the list unchanged. */
  function RefreshLoad(c: Chain, account: string): (l: Load)
    ensures |l.calls| >= 1 && l.calls[0] == NextTokenId
    ensures c.nextTokenId.None? ==> l == Load(None, [NextTokenId])
    ensures c.nextTokenId.Some? ==>
      var t := Scan(c, account, c.nextTokenId.value, RefreshWindow);
      l == Load(Some(Reversed(t.found)), [NextTokenId] + t.calls)
  {
    match c.nextTokenId
    case None => Load(None, [NextTokenId])
    case Some(next) =>
      var t := Scan(c, account, next, RefreshWindow);
      Load(Some(Reversed(t.found)), [NextTokenId] + t.calls)
  }

  /** The invariant the displayed list keeps: at most ten entries, newest first. */
  predicate NewestFirst(ts: seq<Token>) {
    |ts| <= MaxResults && Descending(Ids(ts))
  }

  /** The tokens a load shows come from its own window: `[max(1, next - 100), next - 1]` for
      the initial load and `[max(1, next - 20), next - 1]` for the refresh; each is owned by the
      wallet and carries its metadata. */
  lemma LoadsShowTheirWindow(c: Chain, account: string, creationCount: Option<nat>)
    requires c.nextTokenId.Some?
    ensures FoundSound(c, account, StartId(c.nextTokenId.value, InitialWindow), c.nextTokenId.value,
                       InitialLoad(c, account, creationCount).tokens.value)
    ensures FoundSound(c, account, StartId(c.nextTokenId.value, RefreshWindow), c.nextTokenId.value,
                       RefreshLoad(c, account).tokens.value)
  {
    var next := c.nextTokenId.value;
    ShownListNewestFirst(c, account, next, InitialWindow);
    ShownListNewestFirst(c, account, next, RefreshWindow);
  }

  lemma LoadsKeepNewestFirst(c: Chain, account: string, creationCount: Option<nat>)
    ensures InitialLoad(c, account, creationCount).tokens.Some?
    ensures NewestFirst(InitialLoad(c, account, creationCount).tokens.value)
    ensures RefreshLoad(c, account).tokens.Some? ==> NewestFirst(RefreshLoad(c, account).tokens.value)
  {
    if c.nextTokenId.Some? {
      ShownListNewestFirst(c, account, c.nextTokenId.value, InitialWindow);
      ShownListNewestFirst(c, account, c.nextTokenId.value, RefreshWindow);
    }
  }
}
