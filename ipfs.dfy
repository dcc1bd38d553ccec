/** The expression-level pieces of the NFT generator component: the IPFS locator rewrite used
    when metadata is read back, the check applied to every locator an upload returns, the
    metadata document written before minting, and the choice of transaction hash. */
module Ipfs {
  import opened JsText

  const IpfsScheme := "ipfs://"
  const HttpsScheme := "https://"
  const GatewayBase := "https://ipfs.io/ipfs/"

  /** The locator as fetched: an `ipfs://X` locator becomes the gateway URL for `X`,
      anything else is used as it is. */
  function GatewayUrl(locator: string): (url: string)
    ensures StartsWith(locator, IpfsScheme) ==> url == GatewayBase + locator[|IpfsScheme|..]
    ensures !StartsWith(locator, IpfsScheme) ==> url == locator
  {
    if StartsWith(locator, IpfsScheme) then
      ReplacePrefix(locator, IpfsScheme);
      GatewayBase + ReplaceFirst(locator, IpfsScheme, "")
    else locator
  }

  /** A rewritten locator is never rewritten again: the gateway URL is an https URL. */
  lemma GatewayUrlIdempotent(locator: string)
    ensures GatewayUrl(GatewayUrl(locator)) == GatewayUrl(locator)
  {
    if StartsWith(locator, IpfsScheme) {
      var url := GatewayUrl(locator);
      assert url[0] == GatewayBase[0] != IpfsScheme[0];
    }
  }

  /** The rewrite loses nothing: the content identifier of an `ipfs://` locator can be read
      back from its gateway URL, so different locators give different URLs. */
  lemma GatewayUrlRecoversLocator(locator: string)
    requires StartsWith(locator, IpfsScheme)
    ensures StartsWith(GatewayUrl(locator), GatewayBase)
    ensures IpfsScheme + GatewayUrl(locator)[|GatewayBase|..] == locator
  {
    var url := GatewayUrl(locator);
    assert url[|GatewayBase|..] == locator[|IpfsScheme|..];
    assert locator == locator[..|IpfsScheme|] + locator[|IpfsScheme|..];
  }

  lemma GatewayUrlInjective(a: string, b: string)
    requires StartsWith(a, IpfsScheme) && StartsWith(b, IpfsScheme)
    requires GatewayUrl(a) == GatewayUrl(b)
    ensures a == b
  {
    GatewayUrlRecoversLocator(a);
    GatewayUrlRecoversLocator(b);
  }

  /** The validation applied to the locator an upload returns:
      `!uri || (!uri.startsWith("ipfs://") && !uri.startsWith("https://"))` rejects. */
  predicate IsAcceptedUri(uri: Option<string>) {
    !(!Truthy(uri) || (!StartsWith(uri.value, IpfsScheme) && !StartsWith(uri.value, HttpsScheme)))
  }

  /** Acceptance, stated positively: a present locator in one of the two schemes (which makes
      it non-empty), and every accepted locator is fetched over https. */
  lemma AcceptedUriIff(uri: Option<string>)
    ensures IsAcceptedUri(uri) <==>
      uri.Some? && (StartsWith(uri.value, IpfsScheme) || StartsWith(uri.value, HttpsScheme))
    ensures IsAcceptedUri(uri) ==> StartsWith(GatewayUrl(uri.value), HttpsScheme)
  {
    if IsAcceptedUri(uri) && StartsWith(uri.value, IpfsScheme) {
      assert GatewayUrl(uri.value)[..|HttpsScheme|] == GatewayBase[..|HttpsScheme|];
    }
  }

  /** What the upload client returned: an array of locators or a single one. */
  datatype UploadValue = UriList(uris: seq<string>) | SingleUri(uri: string)

  datatype UploadOutcome = UploadThrew(e: Thrown) | Uploaded(value: UploadValue)

  /** `Array.isArray(uris) ? uris[0] : uris`; the first element of an empty array is absent. */
  function PickUri(v: UploadValue): (u: Option<string>)
    ensures v.SingleUri? ==> u == Some(v.uri)
    ensures v.UriList? ==> (u.Some? <==> |v.uris| > 0)
    ensures v.UriList? && u.Some? ==> u.value == v.uris[0]
  {
    match v
    case SingleUri(s) => Some(s)
    case UriList(xs) => if |xs| > 0 then Some(xs[0]) else None
  }

  /** A value interpolated into a template literal: an absent one prints as `undefined`. */
  function Shown(u: Option<string>): string {
    match u
    case Some(s) => s
    case None => "undefined"
  }

  /** The result of an async step that either returns a value or throws an `Error`. */
  datatype Attempt<+T> = Done(value: T) | Raised(message: string)

  const ImageUploadPrefix := "Failed to upload image to IPFS: "
  const MetadataUploadFailure := "Failed to upload metadata to IPFS"

  /** `uploadImageToIPFS`: the accepted locator, or an error whose message names the cause. */
  function UploadImageResult(o: UploadOutcome): (r: Attempt<string>)
    ensures r.Done? <==> o.Uploaded? && IsAcceptedUri(PickUri(o.value))
    ensures r.Done? ==> Some(r.value) == PickUri(o.value)
    ensures r.Raised? ==> StartsWith(r.message, ImageUploadPrefix)
  {
    match o
    case UploadThrew(e) => Raised(ImageUploadPrefix + MessageOr(e, "Unknown error"))
    case Uploaded(v) =>
      var u := PickUri(v);
      if IsAcceptedUri(u) then Done(u.value)
      else Raised(ImageUploadPrefix + "Invalid IPFS URI returned: " + Shown(u))
  }

  /** `uploadMetadataToIPFS`: every failure is reported with one fixed message. */
  function UploadMetadataResult(o: UploadOutcome): (r: Attempt<string>)
    ensures r.Done? <==> o.Uploaded? && IsAcceptedUri(PickUri(o.value))
    ensures r.Done? ==> Some(r.value) == PickUri(o.value)
    ensures r.Raised? ==> r.message == MetadataUploadFailure
  {
    match o
    case UploadThrew(_) => Raised(MetadataUploadFailure)
    case Uploaded(v) =>
      var u := PickUri(v);
      if IsAcceptedUri(u) then Done(u.value) else Raised(MetadataUploadFailure)
  }

  const PromptExcerptLength := 100
  const Ellipsis := "..."

  /** `prompt.slice(0, 100) + (prompt.length > 100 ? "..." : "")` */
  function PromptExcerpt(prompt: string): string {
    Prefix(prompt, PromptExcerptLength) + (if |prompt| > PromptExcerptLength then Ellipsis else "")
  }

  /** The excerpt keeps the first 100 characters of the prompt; a longer prompt is cut there
      and marked with an ellipsis, a shorter one is kept whole. */
  lemma PromptExcerptShape(prompt: string)
    ensures |PromptExcerpt(prompt)| <= PromptExcerptLength + |Ellipsis|
    ensures |prompt| <= PromptExcerptLength ==> PromptExcerpt(prompt) == prompt
    ensures |prompt| > PromptExcerptLength ==>
      |PromptExcerpt(prompt)| == PromptExcerptLength + |Ellipsis|
      && PromptExcerpt(prompt)[..PromptExcerptLength] == prompt[..PromptExcerptLength]
      && PromptExcerpt(prompt)[PromptExcerptLength..] == Ellipsis
  {
  }

  datatype Attribute = Attribute(traitType: string, value: string)

  datatype MetadataDoc = MetadataDoc(name: string, description: string, image: string,
                                     attributes: seq<Attribute>)

  const AiModelLabel := "Gemini Nano Banana"
  const NamePrefix := "NanoNFT by moayaan.eth #"
  const DescriptionPrefix := "AI-generated NFT: "

  /** The trait types of the metadata document, in the order they are written. */
  const TraitOrder := ["AI Model", "Generation Date", "Prompt", "Created At"]

  /** The metadata document built before upload. `nowMillis` is `Date.now()`, `dateIso` and
      `createdIso` are the two `new Date().toISOString()` readings. */
  function BuildMetadata(prompt: string, imageUri: string, nowMillis: nat,
                         dateIso: string, createdIso: string): (d: MetadataDoc)
    ensures |d.attributes| == |TraitOrder|
    ensures forall k :: 0 <= k < |TraitOrder| ==> d.attributes[k].traitType == TraitOrder[k]
    ensures d.image == imageUri
    ensures StartsWith(d.description, DescriptionPrefix) && d.description[|DescriptionPrefix|..] == prompt
    ensures d.attributes[2].value == PromptExcerpt(prompt)
    ensures d.name == NamePrefix + NatToString(nowMillis)
    ensures d.attributes[0].value == AiModelLabel
    ensures d.attributes[1].value == BeforeFirst(dateIso, 'T')
    ensures StartsWith(dateIso, d.attributes[1].value) && 'T' !in d.attributes[1].value
    ensures d.attributes[3].value == createdIso
  {
    MetadataDoc(
      NamePrefix + NatToString(nowMillis),
      DescriptionPrefix + prompt,
      imageUri,
      [ Attribute("AI Model", AiModelLabel),
        Attribute("Generation Date", BeforeFirst(dateIso, 'T')),
        Attribute("Prompt", PromptExcerpt(prompt)),
        Attribute("Created At", createdIso) ])
  }

  /** Documents built at different `Date.now()` readings carry different names. */
  lemma MetadataNamesDistinct(p: string, u: string, t1: nat, t2: nat, d: string, c: string)
    requires t1 != t2
    ensures BuildMetadata(p, u, t1, d, c).name != BuildMetadata(p, u, t2, d, c).name
  {
    var n1 := BuildMetadata(p, u, t1, d, c).name;
    var n2 := BuildMetadata(p, u, t2, d, c).name;
    if n1 == n2 {
      assert n1[|NamePrefix|..] == NatToString(t1);
      assert n2[|NamePrefix|..] == NatToString(t2);
      NatToStringInjective(t1, t2);
    }
  }

  /** The fields of what the transaction call resolved to. */
  datatype TxResult = TxResult(transactionHash: Option<string>, hash: Option<string>)

  /** `result?.transactionHash || result?.hash || ""` */
  function SelectHash(result: Option<TxResult>): (h: string)
    ensures h != "" ==>
      result.Some? &&
      ((Truthy(result.value.transactionHash) && h == result.value.transactionHash.value) ||
       (Truthy(result.value.hash) && h == result.value.hash.value))
    ensures result.Some? && Truthy(result.value.transactionHash) ==> h == result.value.transactionHash.value
    ensures h == "" <==> result.None? || (!Truthy(result.value.transactionHash) && !Truthy(result.value.hash))
  {
    match result
    case None => ""
    case Some(r) => OrElse(r.transactionHash, OrElse(r.hash, ""))
  }
}
