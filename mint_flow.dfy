/** The steps of minting the generated image, as the generator component runs them: read the
    image into a file, upload it, build and upload the metadata document, then send the
    `createNFT(tokenURI, isFree)` transaction. The first step that fails ends the run with an
    error message; only a transaction that resolves with a hash counts as a mint. The upload
    client, the wallet and the clock are oracles gathered in `MintEnv`. */
module MintFlow {
  import opened JsText
  import opened Ipfs
  import NftStats

  /** How sending the transaction ended: it resolved (with or without a result object), it was
      rejected with a thrown value, or the 60-second timeout won the race. */
  datatype TxOutcome = TxResolved(result: Option<TxResult>) | TxRejected(e: Thrown) | TxTimedOut

  /** What the outside world answers during one mint. `imageRead` is `None` when the image
      was fetched into a file, `Some(e)` when the fetch or the blob conversion threw `e`. */
  datatype MintEnv = MintEnv(
    imageRead: Option<Thrown>,
    uploadImage: UploadOutcome,
    uploadMetadata: MetadataDoc -> UploadOutcome,
    eligibility: Option<NftStats.Eligibility>,
    sendTransaction: (string, bool) -> TxOutcome,
    nowMillis: nat,
    dateIso: string,
    createdIso: string)

  /** The external calls of a mint, in the order they are made. */
  datatype MintCall =
    | ReadImage(url: string)
    | UploadImageFile
    | UploadMetadataDoc(doc: MetadataDoc)
    | CreateNFT(tokenUri: string, isFree: bool)

  datatype MintOutcome = Minted(hash: string) | MintFailed(message: string)

  datatype MintRun = MintRun(outcome: MintOutcome, calls: seq<MintCall>)

  const MintFallback := "Failed to mint NFT"
  const TxFailurePrefix := "Transaction failed: "
  const TxUnknownError := "Unknown transaction error"
  const TxTimeoutMessage := "Transaction timeout after 60 seconds"
  const TxNoHashMessage := "Transaction completed but no hash received"

  /** `Boolean(mintEligibility?.[0])`: free only when eligibility was read and allows it. */
  predicate CanCreateFree(e: Option<NftStats.Eligibility>) {
    e.Some? && e.value.canCreate
  }

  /** The transaction step with its own `catch`: every failure, including a result without a
      hash, is re-thrown as `Transaction failed: ...`. */
  function TxStep(o: TxOutcome): (r: MintOutcome)
    ensures r.Minted? <==> o.TxResolved? && SelectHash(o.result) != ""
    ensures r.Minted? ==> r.hash == SelectHash(o.result)
    ensures r.MintFailed? ==> StartsWith(r.message, TxFailurePrefix)
    ensures o.TxTimedOut? ==> r.message[|TxFailurePrefix|..] == TxTimeoutMessage
    ensures o.TxResolved? && r.MintFailed? ==> r.message[|TxFailurePrefix|..] == TxNoHashMessage
    ensures o.TxRejected? ==> r.message[|TxFailurePrefix|..] == MessageOr(o.e, TxUnknownError)
  {
    var r := match o
      case TxRejected(e) => MintFailed(TxFailurePrefix + MessageOr(e, TxUnknownError))
      case TxTimedOut => MintFailed(TxFailurePrefix + TxTimeoutMessage)
      case TxResolved(res) =>
        var h := SelectHash(res);
        if h != "" then Minted(h) else MintFailed(TxFailurePrefix + TxNoHashMessage);
    assert r.MintFailed? ==> r.message[..|TxFailurePrefix|] == TxFailurePrefix;
    r
  }

  /** One mint of `image` with the current `prompt`. */
  function RunMint(prompt: string, image: string, env: MintEnv): (run: MintRun)
    ensures 1 <= |run.calls| <= 4 && run.calls[0] == ReadImage(image)
    ensures run.outcome.Minted? ==> |run.calls| == 4
  {
    if env.imageRead.Some? then
      MintRun(MintFailed(MessageOr(env.imageRead.value, MintFallback)), [ReadImage(image)])
    else match UploadImageResult(env.uploadImage)
      case Raised(m) => MintRun(MintFailed(m), [ReadImage(image), UploadImageFile])
      case Done(imageUri) =>
        var doc := BuildMetadata(prompt, imageUri, env.nowMillis, env.dateIso, env.createdIso);
        match UploadMetadataResult(env.uploadMetadata(doc))
        case Raised(m) => MintRun(MintFailed(m), [ReadImage(image), UploadImageFile, UploadMetadataDoc(doc)])
        case Done(tokenUri) =>
          var isFree := CanCreateFree(env.eligibility);
          MintRun(TxStep(env.sendTransaction(tokenUri, isFree)),
                  [ReadImage(image), UploadImageFile, UploadMetadataDoc(doc), CreateNFT(tokenUri, isFree)])
  }

  /** The `try` block of the mint handler: the steps, each awaited before the next, the first
      failure ending the run. */
  method MintSteps(prompt: string, image: string, env: MintEnv) returns (outcome: MintOutcome, calls: seq<MintCall>)
    ensures MintRun(outcome, calls) == RunMint(prompt, image, env)
  {
    calls := [ReadImage(image)];
    if env.imageRead.Some? {
      return MintFailed(MessageOr(env.imageRead.value, MintFallback)), calls;
    }
    calls := calls + [UploadImageFile];
    var imageStep := UploadImageResult(env.uploadImage);
    if imageStep.Raised? {
      return MintFailed(imageStep.message), calls;
    }
    var doc := BuildMetadata(prompt, imageStep.value, env.nowMillis, env.dateIso, env.createdIso);
    calls := calls + [UploadMetadataDoc(doc)];
    var metadataStep := UploadMetadataResult(env.uploadMetadata(doc));
    if metadataStep.Raised? {
      return MintFailed(metadataStep.message), calls;
    }
    var isFree := CanCreateFree(env.eligibility);
    calls := calls + [CreateNFT(metadataStep.value, isFree)];
    outcome := TxStep(env.sendTransaction(metadataStep.value, isFree));
  }

  /** The steps run in a fixed order and each runs only when the one before it succeeded: the
      metadata names the locator the image upload returned (after it passed the locator check),
      and the transaction carries the locator the metadata upload returned (checked the same
      way) and the free flag read from the eligibility. */
  lemma MintStepOrder(prompt: string, image: string, env: MintEnv)
    ensures var calls := RunMint(prompt, image, env).calls;
      && (forall k :: 0 <= k < |calls| ==>
            (calls[k].ReadImage? <==> k == 0) && (calls[k].UploadImageFile? <==> k == 1)
            && (calls[k].UploadMetadataDoc? <==> k == 2) && (calls[k].CreateNFT? <==> k == 3))
      && (|calls| >= 2 <==> env.imageRead.None?)
      && (|calls| >= 3 <==> env.imageRead.None? && UploadImageResult(env.uploadImage).Done?)
      && (|calls| >= 3 ==>
            IsAcceptedUri(Some(calls[2].doc.image))
            && Some(calls[2].doc.image) == PickUri(env.uploadImage.value)
            && calls[2].doc == BuildMetadata(prompt, calls[2].doc.image, env.nowMillis, env.dateIso, env.createdIso))
      && (|calls| == 4 <==> |calls| >= 3 && UploadMetadataResult(env.uploadMetadata(calls[2].doc)).Done?)
      && (|calls| == 4 ==>
            IsAcceptedUri(Some(calls[3].tokenUri))
            && Some(calls[3].tokenUri) == PickUri(env.uploadMetadata(calls[2].doc).value)
            && calls[3].isFree == CanCreateFree(env.eligibility))
  {
    var calls := RunMint(prompt, image, env).calls;
    if |calls| >= 3 {
      assert UploadImageResult(env.uploadImage).Done?;
      var imageUri := UploadImageResult(env.uploadImage).value;
      assert calls[2].doc == BuildMetadata(prompt, imageUri, env.nowMillis, env.dateIso, env.createdIso);
    }
  }

  /** A mint succeeds exactly when all four steps succeed, and the hash it reports is the one
      chosen from the transaction result. */
  lemma MintedIff(prompt: string, image: string, env: MintEnv)
    ensures var run := RunMint(prompt, image, env);
      run.outcome.Minted? <==>
        |run.calls| == 4 && env.sendTransaction(run.calls[3].tokenUri, run.calls[3].isFree).TxResolved?
        && SelectHash(env.sendTransaction(run.calls[3].tokenUri, run.calls[3].isFree).result) != ""
    ensures var run := RunMint(prompt, image, env);
      run.outcome.Minted? ==>
        run.outcome.hash != ""
        && run.outcome.hash == SelectHash(env.sendTransaction(run.calls[3].tokenUri, run.calls[3].isFree).result)
  {
    MintStepOrder(prompt, image, env);
  }

  /** Which step failed can be read off the message: the image upload's errors carry the image
      prefix, the metadata upload has one fixed message, and the transaction's carry their own
      prefix. */
  lemma MintFailureMessages(prompt: string, image: string, env: MintEnv)
    ensures var run := RunMint(prompt, image, env);
      && (|run.calls| == 1 ==> run.outcome == MintFailed(MessageOr(env.imageRead.value, MintFallback)))
      && (|run.calls| == 2 ==> run.outcome.MintFailed? && StartsWith(run.outcome.message, ImageUploadPrefix))
      && (|run.calls| == 3 ==> run.outcome == MintFailed(MetadataUploadFailure))
      && (|run.calls| == 4 && run.outcome.MintFailed? ==> StartsWith(run.outcome.message, TxFailurePrefix))
  {
  }
}
