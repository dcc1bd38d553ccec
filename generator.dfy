/** The generator component's state and its handlers: the prompt, the generated image, the
    error and quota flags, the mint result and the list of the user's tokens. Each handler is
    modelled as one completed run of the async function: the busy flags it raises while it
    awaits are lowered again by its `finally`, so they are false between handlers. */
module Generator {
  import opened JsText
  import opened OwnedScan
  import NftStats
  import MintFlow
  import GenerateRoute

  const DefaultPrompt := "A panda eating bamboo in a futuristic chinese city"
  const GenerateFallback := "Failed to generate NFT"
  const QuotaFallback := "API quota exceeded"
  const NoImageMessage := "No image generated"

  /** What the request to the generation endpoint gave: the request or the JSON decoding threw,
      or a status with the `error` and `imageUrl` fields of the decoded body. */
  datatype GenReply =
    | RequestFailed(e: Thrown)
    | Replied(status: nat, error: Option<string>, imageUrl: Option<string>)

  /** `response.ok` */
  predicate IsOk(status: nat) {
    200 <= status <= 299
  }

  /** What a generation leaves in the state: the image, the error, the quota flag. */
  datatype GenEffect = GenEffect(image: Option<string>, error: Option<string>, quota: bool)

  /** The `try`/`catch` of the generate handler after the state was reset. */
  function GenerateEffect(reply: GenReply): (g: GenEffect)
    ensures g.image.Some? <==> reply.Replied? && IsOk(reply.status) && Truthy(reply.imageUrl)
    ensures g.image.Some? ==> g.image == reply.imageUrl && g.error.None? && !g.quota
    ensures g.image.None? ==> g.error.Some?
    ensures g.quota <==> reply.Replied? && reply.status == 429
    ensures g.quota ==> g.error.value != "" && g.error.value == OrElse(reply.error, QuotaFallback)
    ensures reply.Replied? && !IsOk(reply.status) && reply.status != 429 ==>
      g.error == Some(OrElse(reply.error, GenerateFallback))
    ensures reply.RequestFailed? ==> g.error == Some(MessageOr(reply.e, GenerateFallback))
    ensures reply.Replied? && IsOk(reply.status) && !Truthy(reply.imageUrl) ==> g.error == Some(NoImageMessage)
  {
    match reply
    case RequestFailed(e) => GenEffect(None, Some(MessageOr(e, GenerateFallback)), false)
    case Replied(status, err, url) =>
      if !IsOk(status) then
        if status == 429 then GenEffect(None, Some(OrElse(err, QuotaFallback)), true)
        else GenEffect(None, Some(OrElse(err, GenerateFallback)), false)
      else if Truthy(url) then GenEffect(Some(url.value), None, false)
      else GenEffect(None, Some(NoImageMessage), false)
  }

  /** The guard of the generate handler, `!prompt.trim()`: the prompt is blank exactly when
      it is all white space. */
  method IsBlank(s: string) returns (blank: bool)
    ensures blank <==> AllSpace(s)
  {
    TrimEmptyIff(s);
    blank := Trim(s) == "";
  }

  /** The `try`/`catch` of the generate handler, statement by statement. */
  method GenerateSteps(reply: GenReply) returns (image: Option<string>, error: Option<string>, quota: bool)
    ensures GenEffect(image, error, quota) == GenerateEffect(reply)
  {
    image, error, quota := None, None, false;
    match reply {
      case RequestFailed(e) =>
        error := Some(MessageOr(e, GenerateFallback));
      case Replied(status, err, url) =>
        if !IsOk(status) {
          if status == 429 {
            quota := true;
            error := Some(OrElse(err, QuotaFallback));
          } else {
            error := Some(OrElse(err, GenerateFallback));
          }
        } else if Truthy(url) {
          image := url;
        } else {
          error := Some(NoImageMessage);
        }
    }
  }

  /** The reply the component reads from a response of the endpoint. */
  function ReplyOf(h: GenerateRoute.HttpResponse): GenReply {
    match h.body
    case ErrorBody(err) => Replied(h.status, Some(err), None)
    case QuotaBody(err, _, _, _, _) => Replied(h.status, Some(err), None)
    case SuccessBody(url, _, _) => Replied(h.status, None, Some(url))
  }

  /** How the component reads any response of the endpoint's shape: a success body (status
      200, non-empty image URL) shows its image, a quota body (status 429) raises the quota
      flag, and any other error body shows its error. */
  lemma EffectOfResponse(h: GenerateRoute.HttpResponse)
    requires h.status in {200, 400, 401, 429, 500}
    requires h.body.SuccessBody? <==> h.status == 200
    requires h.body.SuccessBody? ==> h.body.imageUrl != ""
    requires !h.body.SuccessBody? ==> h.body.error != ""
    requires h.status == 429 <==> h.body.QuotaBody?
    ensures var g := GenerateEffect(ReplyOf(h));
      && (g.image.Some? <==> h.status == 200)
      && (h.status == 200 ==> g.image == Some(h.body.imageUrl))
      && (g.quota <==> h.status == 429)
      && (h.status != 200 ==> g.error == Some(h.body.error))
  {
    if h.status == 200 {
      assert ReplyOf(h) == Replied(200, None, Some(h.body.imageUrl));
    } else {
      assert ReplyOf(h) == Replied(h.status, Some(h.body.error), None);
    }
  }

  /** The component and the endpoint together: the image appears exactly when the endpoint
      answered 200, and it is the data URL that was sent; a 429 raises the quota flag with the
      endpoint's error; any other failure shows the endpoint's error message. */
  lemma GenerateAgainstEndpoint(p: string, apiKey: Option<string>, gen: string -> GenerateRoute.ModelOutcome)
    ensures var h := GenerateRoute.Respond(GenerateRoute.Parsed(GenerateRoute.Text(p)), apiKey, gen).response;
      var g := GenerateEffect(ReplyOf(h));
      && (g.image.Some? <==> h.status == 200)
      && (h.status == 200 ==> g.image == Some(h.body.imageUrl) && StartsWith(h.body.imageUrl, GenerateRoute.DataPrefix))
      && (g.quota <==> h.status == 429)
      && (h.status == 429 ==> g.error == Some(GenerateRoute.QuotaError))
      && (h.status != 200 ==> g.error == Some(h.body.error))
  {
    var body := GenerateRoute.Parsed(GenerateRoute.Text(p));
    GenerateRoute.RespondBodies(body, apiKey, gen);
    var h := GenerateRoute.Respond(body, apiKey, gen).response;
    if h.status == 200 {
      GenerateRoute.SuccessfulRequest(body, apiKey, gen);
    }
    EffectOfResponse(h);
  }

  /** The `userStats?.[0]` creation count the initial load falls back on. */
  function CreationCount(stats: Option<NftStats.UserStats>): (n: Option<nat>)
    ensures n.Some? <==> stats.Some?
    ensures n.Some? ==> n.value == stats.value.totalCreations
  {
    if stats.Some? then Some(stats.value.totalCreations) else None
  }

  class NFTGenerator {
    const account: string
    var prompt: string
    var isGenerating: bool
    var generatedImage: Option<string>
    var error: Option<string>
    var quotaExceeded: bool
    var isMinting: bool
    var mintSuccess: bool
    var txHash: Option<string>
    var userNFTs: seq<Token>
    var isLoadingNFTs: bool

    /** Between handlers: no handler is running, the quota flag only stands beside an error
        and no image, a shown image is non-empty, a mint success always has a hash, and the
        token list is at most ten entries, newest first. */
    ghost predicate Valid()
      reads this
    {
      && !isGenerating && !isMinting && !isLoadingNFTs
      && (quotaExceeded ==> error.Some? && generatedImage.None?)
      && (generatedImage.Some? ==> Truthy(generatedImage))
      && (mintSuccess ==> Truthy(txHash))
      && NewestFirst(userNFTs)
    }

    constructor (account: string)
      ensures Valid()
      ensures this.account == account && prompt == DefaultPrompt
      ensures generatedImage.None? && error.None? && !quotaExceeded
      ensures !mintSuccess && txHash.None? && userNFTs == []
    {
      this.account := account;
      prompt := DefaultPrompt;
      isGenerating, generatedImage, error, quotaExceeded := false, None, None, false;
      isMinting, mintSuccess, txHash := false, false, None;
      userNFTs, isLoadingNFTs := [], false;
    }

    method SetPrompt(p: string)
      requires Valid()
      modifies this
      ensures Valid()
      ensures prompt == p
      ensures generatedImage == old(generatedImage) && error == old(error)
      ensures quotaExceeded == old(quotaExceeded) && mintSuccess == old(mintSuccess)
      ensures txHash == old(txHash) && userNFTs == old(userNFTs)
    {
      prompt := p;
    }

    /** The load run when the account or the user statistics change. */
    method LoadUserNFTs(c: Chain, stats: Option<NftStats.UserStats>) returns (calls: seq<Call>)
      requires Valid()
      modifies this
      ensures Valid()
      ensures Load(Some(userNFTs), calls) == InitialLoad(c, account, CreationCount(stats))
      ensures prompt == old(prompt) && generatedImage == old(generatedImage) && error == old(error)
      ensures quotaExceeded == old(quotaExceeded) && mintSuccess == old(mintSuccess) && txHash == old(txHash)
    {
      LoadsKeepNewestFirst(c, account, CreationCount(stats));
      isLoadingNFTs := true;
      calls := [BalanceOf];
      var actualBalance: nat;
      if c.balanceOf.Some? {
        actualBalance := c.balanceOf.value;
      } else {
        // the balance call threw: fall back on the creation count
        actualBalance := if stats.Some? then stats.value.totalCreations else 0;
      }
      assert actualBalance == ActualBalance(c, CreationCount(stats));
      if actualBalance == 0 {
        userNFTs := [];
      } else {
        calls := calls + [NextTokenId];
        if c.nextTokenId.None? {
          userNFTs := [];
        } else {
          var tokens, scanCalls := ScanOwned(c, account, c.nextTokenId.value, InitialWindow);
          userNFTs := tokens;
          calls := calls + scanCalls;
          assert InitialLoad(c, account, CreationCount(stats)) == Load(Some(tokens), calls);
        }
      }
      isLoadingNFTs := false;
    }

    /** The reload scheduled after a successful mint. */
    method RefreshUserNFTs(c: Chain) returns (calls: seq<Call>)
      requires Valid()
      modifies this
      ensures Valid()
      ensures calls == RefreshLoad(c, account).calls
      ensures userNFTs == (if RefreshLoad(c, account).tokens.Some? then RefreshLoad(c, account).tokens.value
                           else old(userNFTs))
      ensures prompt == old(prompt) && generatedImage == old(generatedImage) && error == old(error)
      ensures quotaExceeded == old(quotaExceeded) && mintSuccess == old(mintSuccess) && txHash == old(txHash)
    {
      LoadsKeepNewestFirst(c, account, None);
      isLoadingNFTs := true;
      calls := [NextTokenId];
      if c.nextTokenId.Some? {
        var tokens, scanCalls := ScanOwned(c, account, c.nextTokenId.value, RefreshWindow);
        userNFTs := tokens;
        calls := calls + scanCalls;
      }
      isLoadingNFTs := false;
    }

    /** The generate handler: a blank prompt changes nothing; otherwise image, error and quota
        flag are reset and then set from the reply. */
    method HandleGenerate(reply: GenReply)
      requires Valid()
      modifies this
      ensures Valid()
      ensures AllSpace(old(prompt)) ==>
        generatedImage == old(generatedImage) && error == old(error) && quotaExceeded == old(quotaExceeded)
      ensures !AllSpace(old(prompt)) ==>
        GenEffect(generatedImage, error, quotaExceeded) == GenerateEffect(reply)
      ensures prompt == old(prompt) && mintSuccess == old(mintSuccess) && txHash == old(txHash)
      ensures userNFTs == old(userNFTs)
    {
      var blank := IsBlank(prompt);
      if blank {
        return;
      }
      isGenerating := true;
      error := None;
      generatedImage := None;
      quotaExceeded := false;
      generatedImage, error, quotaExceeded := GenerateSteps(reply);
      isGenerating := false;
    }

    /** The mint handler: without an image nothing happens; otherwise the mint steps run in
        order, a success records the hash and schedules the refresh, and a failure shows its
        message and leaves the previous hash in place. */
    method HandleMint(env: MintFlow.MintEnv) returns (calls: seq<MintFlow.MintCall>, refreshScheduled: bool)
      requires Valid()
      modifies this
      ensures Valid()
      ensures old(generatedImage).None? ==>
        calls == [] && !refreshScheduled && error == old(error) && mintSuccess == old(mintSuccess)
        && txHash == old(txHash)
      ensures old(generatedImage).Some? ==>
        var run := MintFlow.RunMint(old(prompt), old(generatedImage).value, env);
        && calls == run.calls
        && refreshScheduled == run.outcome.Minted?
        && (run.outcome.Minted? ==> txHash == Some(run.outcome.hash) && mintSuccess && error.None?)
        && (run.outcome.MintFailed? ==> error == Some(run.outcome.message) && !mintSuccess && txHash == old(txHash))
      ensures prompt == old(prompt) && generatedImage == old(generatedImage)
      ensures quotaExceeded == old(quotaExceeded) && userNFTs == old(userNFTs)
    {
      if generatedImage.None? {
        return [], false;
      }
      var image := generatedImage.value;
      isMinting := true;
      error := None;
      mintSuccess := false;
      var outcome;
      outcome, calls := MintFlow.MintSteps(prompt, image, env);
      match outcome {
        case Minted(h) =>
          txHash := Some(h);
          mintSuccess := true;
          refreshScheduled := true;
        case MintFailed(m) =>
          error := Some(m);
          refreshScheduled := false;
      }
      isMinting := false;
    }
  }
}
