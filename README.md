# nano-nft: the generator, its endpoint and the quota panel, in Dafny

nano-nft is a web application that turns a text prompt into an image with a Gemini image
model and mints that image as an NFT. The wallet signs a `createNFT(tokenURI, isFree)` call on
the NanoNFT contract. This project models the parts of the application that make decisions:

- **The generation endpoint** (`POST /api/generate-nft`, module `GenerateRoute`).
  - Validates the prompt.
  - Tries three models in a fixed order until one answers.
  - Takes the description and the inline image out of the first candidate.
  - Answers with a `data:` URL.
  - Maps a thrown error to 401, 429, 400 or 500 by its message.
  - `GET` is refused with 405.
- **The generator component** (modules `Generator`, `OwnedScan`, `MintFlow`, `Ipfs`).
  - Its state is a class, `Generator.NFTGenerator`, with the component's state variables as
    fields.
  - Its handlers are methods on that class:
    - generate: classify the endpoint's reply;
    - mint: read the image, upload it, build and upload the metadata document, send the
      transaction, pick the hash;
    - load the wallet's tokens: a scan of a window of recent token ids, probed in ascending
      order, at most ten kept, shown newest first.
  - With more than ten owned tokens in the window, the scan keeps the ten lowest ids of the
    window, not the ten newest.
- **The free-mint quota panel** (module `NftStats`).
  - Remaining free mints out of three.
  - When the cooldown notice shows and how many hours it gives.
  - When the last-creation line shows.
  - The stats component holds this logic, and the generator component repeats it inline.

`JsText` gives the JavaScript string and value operations the rest relies on, with their JS meaning:

- `trim` and its white-space set;
- `startsWith`, `includes` and `replace` with a string pattern;
- `toLowerCase` on addresses;
- `split`, `slice`;
- rendering a number in a template literal;
- `x || fallback`;
- `e instanceof Error ? e.message : ...`.

Everything outside the program is a parameter, and each outcome is a value:

| outside call | parameter | outcome values |
|---|---|---|
| contract reads and the HTTP gateway | `OwnedScan.Chain` (functions from token id to owner and token URI, from URL to fetch result) | `None` when a read throws |
| upload client, wallet, clocks | `MintFlow.MintEnv` | `TxTimedOut` for the 60-second race |
| Gemini SDK | `gen: string -> ModelOutcome` | |
| the endpoint as the component sees it | `Generator.GenReply` | |

Each loop of the source is a `method` proved equal to a recursive specification function:

| method | loop in the source | specification |
|---|---|---|
| `OwnedScan.ScanOwned` | the scan loop | `OwnedScan.Discover` |
| `GenerateRoute.TryModels` | the model loop | `GenerateRoute.FallbackSpec` |
| `GenerateRoute.ExtractParts` | the parts loop | `GenerateRoute.Extraction` |

The properties the source promises are lemmas about those functions.

Each handler of the component is one completed run of its async function. The busy flags it
raises are lowered by its `finally`, so `NFTGenerator.Valid()` says they are all false between
handlers.

## Model

| member | source | states |
|---|---|---|
| JsText.MessageOr | components/NFTGenerator.tsx:292 | an `Error`'s own message, any other thrown value the fallback |
| JsText.OrElse | components/NFTGenerator.tsx:188-190 | `s \|\| fallback`: the string when present and non-empty, otherwise the fallback |
| JsText.IndexFrom | app/api/generate-nft/route.ts:119 | the first position at or after `from` where the pattern occurs, and no occurrence before it; `None` only when it occurs nowhere from `from` on |
| JsText.ReplacePrefix | components/NFTGenerator.tsx:225-226 | `replace(p, "")` on a string that starts with `p` removes exactly that prefix |
| JsText.TrimIsInfix | app/api/generate-nft/route.ts:8 | `trim()` returns a contiguous piece of the input with only white space cut on either side, and the piece neither starts nor ends with white space |
| JsText.TrimEmptyIff | app/api/generate-nft/route.ts:8 | `s.trim()` is empty exactly when every character of `s` is white space |
| JsText.ToLower | components/NFTGenerator.tsx:159 | lower-casing keeps the length and maps each character on its own |
| JsText.NatToStringRoundTrip | components/NFTGenerator.tsx:357 | the decimal digits a template literal prints for `n` read back as `n` |
| JsText.NatToStringInjective | components/NFTGenerator.tsx:357 | different numbers print differently |
| JsText.BeforeFirst | components/NFTGenerator.tsx:367 | `split("T")[0]` is a prefix without `T`, followed by `T` unless it is the whole string |
| JsText.Prefix | components/NFTGenerator.tsx:371 | `slice(0, n)` is a prefix of length `min(n, length)` |
| Ipfs.GatewayUrl | components/NFTGenerator.tsx:224-228 | an `ipfs://X` locator becomes `https://ipfs.io/ipfs/X`, any other locator is kept |
| Ipfs.GatewayUrlIdempotent | components/NFTGenerator.tsx:241-244 | a rewritten locator is not rewritten again |
| Ipfs.GatewayUrlRecoversLocator | components/NFTGenerator.tsx:224-228 | the `ipfs://` locator can be read back from its gateway URL |
| Ipfs.GatewayUrlInjective | components/NFTGenerator.tsx:224-228 | different `ipfs://` locators give different gateway URLs |
| Ipfs.AcceptedUriIff | components/NFTGenerator.tsx:329-412 | an upload locator (image at :329-334, metadata at :406-412) is accepted exactly when it is present and starts with `ipfs://` or `https://`; every accepted locator is fetched over https |
| Ipfs.PickUri | components/NFTGenerator.tsx:325 | an array answer gives its first element (none when empty), a single answer itself |
| Ipfs.UploadImageResult | components/NFTGenerator.tsx:300-351 | the image upload returns the picked locator exactly when the upload returned and the locator is accepted; every failure carries the `Failed to upload image to IPFS: ` prefix |
| Ipfs.UploadMetadataResult | components/NFTGenerator.tsx:390-421 | the metadata upload returns the picked locator exactly when it is accepted; every failure has the one fixed message |
| Ipfs.PromptExcerptShape | components/NFTGenerator.tsx:371 | the Prompt trait is the prompt when at most 100 characters, otherwise its first 100 characters followed by `...` |
| Ipfs.BuildMetadata | components/NFTGenerator.tsx:356-378 | four traits in the order AI Model, Generation Date, Prompt, Created At; the image is the uploaded locator; the description is the prefix followed by the whole prompt; the date trait is the part of the ISO date before `T` |
| Ipfs.MetadataNamesDistinct | components/NFTGenerator.tsx:357 | documents built at different `Date.now()` readings have different names |
| Ipfs.SelectHash | components/NFTGenerator.tsx:492 | the hash is `transactionHash` when non-empty, else `hash` when non-empty, else empty; it is empty exactly when neither is set |
| OwnedScan.FetchMetadata | components/NFTGenerator.tsx:221-252 | the gateway URL of the token URI is fetched; a network failure, a non-ok status, a body that is not JSON or `null` give no metadata; a primitive gives empty metadata exactly when truthy; an object gives its name and description as they are and its image rewritten by the gateway rule |
| OwnedScan.RewriteImage | components/NFTGenerator.tsx:241-244 | the metadata image is rewritten by the same gateway rule as the token URI, so it is never left an `ipfs://` locator |
| OwnedScan.MakeToken | components/NFTGenerator.tsx:186-191 | each field comes from the metadata when non-empty, otherwise `NanoNFT #<id>`, `AI-generated NFT` or `/icon.png`, so no field is ever empty |
| OwnedScan.ProbeToken | components/NFTGenerator.tsx:149-205 | one id's probe calls `ownerOf` first and only on that id; it yields the token's entry exactly when the owner matches in lower case, the token URI is non-empty and the metadata reads, and nothing otherwise |
| OwnedScan.ProbeOwned | components/NFTGenerator.tsx:149-205 | the loop body's entries and calls are those of the probe |
| OwnedScan.StepConsistent | components/NFTGenerator.tsx:144-148 | one iteration keeps the scan's invariant (ids probed in order, calls inside the window, hits sound, complete and ascending) |
| OwnedScan.DiscoverConsistent | components/NFTGenerator.tsx:144-206 | the loop run to its end keeps that invariant and stops before the end of the window only with ten hits |
| OwnedScan.ScanProperties | components/NFTGenerator.tsx:139-206 | for a window `W`: at most ten tokens; every call names an id of `[max(1, next - W), next - 1]`; ids are probed ascending one by one; a failing id never stops the scan; the tokens kept are exactly the qualifying probed ids |
| OwnedScan.EmptyWindowNoCalls | components/NFTGenerator.tsx:139-148 | with `next <= 1` no id is probed |
| OwnedScan.ShownListNewestFirst | components/NFTGenerator.tsx:208 | the reversed list has strictly decreasing ids, at most ten, each an owned token of the window with its metadata |
| OwnedScan.ScanOwned | components/NFTGenerator.tsx:139-208 | the loop's list, reversed, and its calls are those of the scan specification |
| OwnedScan.ActualBalance | components/NFTGenerator.tsx:102-118 | `balanceOf`, or when it throws the creation count, or 0 |
| OwnedScan.InitialLoad | components/NFTGenerator.tsx:97-218 | the load starts with `balanceOf`; a zero balance empties the list with no other call; with a positive balance a failing `getNextTokenId` empties the list, and otherwise the list is the 100-id scan reversed, after `balanceOf` and `getNextTokenId` |
| OwnedScan.RefreshLoad | components/NFTGenerator.tsx:514-579 | the refresh starts with `getNextTokenId`; when that fails the list is left as it was, otherwise it is the 20-id scan reversed |
| OwnedScan.LoadsShowTheirWindow | components/NFTGenerator.tsx:139-140 | every token the initial load shows has an id in `[max(1, next - 100), next - 1]`, every token the refresh shows one in `[max(1, next - 20), next - 1]` (:525-526); each is owned by the wallet and carries its metadata |
| OwnedScan.LoadsKeepNewestFirst | components/NFTGenerator.tsx:573 | both loads leave at most ten tokens, newest first |
| NftStats.FreeMintsRemaining | components/NFTStats.tsx:38 | `max(0, 3 - creationsToday)`, a missing count read as 0: between 0 and 3, and adds up to 3 with the count while positive |
| NftStats.FreeMintsDisplay | components/NFTStats.tsx:29-44 | a placeholder exactly while loading; `3/3` without eligibility; otherwise the remaining count (repeated inline at components/NFTGenerator.tsx:651-666) |
| NftStats.CooldownHours | components/NFTStats.tsx:59 | `ceil(timeLeft / 3600)`: the least whole number of hours covering the seconds left |
| NftStats.CooldownNotice | components/NFTStats.tsx:48-60 | the notice shows exactly when eligibility is read, free creation is not allowed and time is left; it then shows at least one hour (repeated inline at components/NFTGenerator.tsx:670-683) |
| NftStats.LastCreationLine | components/NFTStats.tsx:84-91 | the line shows exactly when statistics are read and the last creation is positive, at that time in milliseconds (repeated inline at components/NFTGenerator.tsx:706-712) |
| GenerateRoute.PromptRejection | app/api/generate-nft/route.ts:8-20 | the prompt passes exactly when it is a string, not all white space, and at most 500 characters; otherwise 400 with the empty-prompt or the length message |
| GenerateRoute.InvalidPromptCallsNoModel | app/api/generate-nft/route.ts:8-20 | a rejected prompt gets 400 before any model is called |
| GenerateRoute.MissingKeyCallsNoModel | app/api/generate-nft/route.ts:22-30 | a valid prompt with a missing or empty API key gets 500 with `Server configuration error`, and no model is called |
| GenerateRoute.FirstSuccess | app/api/generate-nft/route.ts:43-61 | the first model that answers; every model before it threw; none when all threw |
| GenerateRoute.TryModels | app/api/generate-nft/route.ts:35-61 | the loop's response, last error and models called are those of the fallback specification |
| GenerateRoute.FallbackAnswered | app/api/generate-nft/route.ts:43-61 | when a model answered, the models called are a prefix of the list ending with it, and all before it threw |
| GenerateRoute.FallbackAllThrew | app/api/generate-nft/route.ts:42-66 | when every model throws, all are called and the last one's error is kept |
| GenerateRoute.AllModelsFail | app/api/generate-nft/route.ts:63-66 | when every model throws, the last model's error is rethrown into the error mapping |
| GenerateRoute.ExtractParts | app/api/generate-nft/route.ts:85-96 | the parts loop's description, image data and mime type are those of the extraction specification |
| GenerateRoute.DescriptionIsText | app/api/generate-nft/route.ts:89-91 | the description is the in-order concatenation of the text parts |
| GenerateRoute.LastInline | app/api/generate-nft/route.ts:92-95 | the last part with inline data and no text |
| GenerateRoute.ImageFromLastInline | app/api/generate-nft/route.ts:85-96 | image data and mime type come from the last inline part (a later one overwrites, a text part never counts); with none, no data and `image/png` |
| GenerateRoute.DataUrl | app/api/generate-nft/route.ts:106 | the image URL is a `data:` URL |
| GenerateRoute.DataUrlRoundTrip | app/api/generate-nft/route.ts:106 | mime type and data are both recovered from the URL |
| GenerateRoute.ErrorResponse | app/api/generate-nft/route.ts:114-153 | `API_KEY` gives 401, else `QUOTA` gives 429 with details, help, link and retry fields, else `SAFETY` gives 400; everything else, non-`Error` values included, gives 500 |
| GenerateRoute.Interpret | app/api/generate-nft/route.ts:68-113 | 200 exactly when the first candidate has content, parts and truthy image data, and then the data URL and the trimmed description and prompt; no candidate gives 500 `No response generated from AI`, no content or parts 500 `Invalid response format from AI`, no image 500 `No image was generated` |
| GenerateRoute.SuccessWhenImageReturned | app/api/generate-nft/route.ts:76-113 | a valid prompt, a configured key and a model answer whose first candidate carries inline image data get 200 with that image's data URL and the trimmed description and prompt |
| GenerateRoute.RespondBodies | app/api/generate-nft/route.ts:4-153 | every answer is 200 with a success body or 400, 401, 429 or 500 with a non-empty error; 429 exactly with the quota body |
| GenerateRoute.Post | app/api/generate-nft/route.ts:4-154 | the handler's response and models called are those of `Respond` |
| GenerateRoute.SuccessCameFromModel | app/api/generate-nft/route.ts:23-113 | a 200 answer comes from a parsed valid prompt, a configured key and a model response |
| GenerateRoute.SuccessfulRequest | app/api/generate-nft/route.ts:106-113 | a 200 answer carries the trimmed, non-empty prompt and a `data:` URL |
| GenerateRoute.SuccessfulModels | app/api/generate-nft/route.ts:43-61 | a 200 answer called the models in order up to the first that answered |
| GenerateRoute.Get | app/api/generate-nft/route.ts:157-159 | `GET` gets 405 `Method not allowed` |
| MintFlow.TxStep | components/NFTGenerator.tsx:469-509 | a mint counts only when the transaction resolved with a non-empty hash; a timeout, a rejection or a missing hash fails with `Transaction failed: ` and the cause |
| MintFlow.RunMint | components/NFTGenerator.tsx:431-509 | a run makes one to four calls starting with reading the image, and a mint makes all four |
| MintFlow.MintSteps | components/NFTGenerator.tsx:431-509 | the handler's steps give the outcome and calls of the mint specification |
| MintFlow.MintStepOrder | components/NFTGenerator.tsx:441-463 | read, image upload, metadata upload, `createNFT`, in that order, each only after the previous one succeeded; the metadata names the accepted image locator, the call the accepted metadata locator and the free flag from eligibility |
| MintFlow.MintedIff | components/NFTGenerator.tsx:492-499 | a mint succeeds exactly when all four steps run and the transaction yields a non-empty hash, which is the hash reported |
| MintFlow.MintFailureMessages | components/NFTGenerator.tsx:343-508 | the failing step can be told from the message: read error, image-upload prefix, the metadata message, or the transaction prefix |
| Generator.GenerateEffect | components/NFTGenerator.tsx:262-293 | the image appears exactly with an ok reply carrying a non-empty URL and then no error; the quota flag exactly with 429 and its error; an ok reply without an image shows `No image generated`; other failures show the reply's error or the fixed fallbacks |
| Generator.IsBlank | components/NFTGenerator.tsx:255 | the guard holds exactly when the prompt is all white space |
| Generator.GenerateSteps | components/NFTGenerator.tsx:262-293 | the handler's statements give the effect of the specification |
| Generator.EffectOfResponse | components/NFTGenerator.tsx:271-289 | for any answer of the endpoint's shape: image exactly with 200, quota flag exactly with 429, the endpoint's error otherwise |
| Generator.GenerateAgainstEndpoint | components/NFTGenerator.tsx:262-289 | component and endpoint together: the image shown is the endpoint's `data:` URL exactly when it answered 200; a 429 shows the quota error |
| Generator.CreationCount | components/NFTGenerator.tsx:115 | the creation count is read exactly when the statistics are, and it is their first value, the total creations |
| Generator.NFTGenerator.constructor | components/NFTGenerator.tsx:23-42 | the initial state: the default prompt, no image, error, hash or tokens |
| Generator.NFTGenerator.SetPrompt | components/NFTGenerator.tsx:24-26 | editing the prompt changes nothing else |
| Generator.NFTGenerator.LoadUserNFTs | components/NFTGenerator.tsx:97-218 | the list and the calls are those of the initial load, and the rest of the state is kept |
| Generator.NFTGenerator.RefreshUserNFTs | components/NFTGenerator.tsx:511-582 | the list and the calls are those of the refresh, the list kept when the counter read fails |
| Generator.NFTGenerator.HandleGenerate | components/NFTGenerator.tsx:254-297 | a blank prompt changes nothing; otherwise image, error and quota flag are those of the reply's effect; the invariant is kept |
| Generator.NFTGenerator.HandleMint | components/NFTGenerator.tsx:424-591 | no image, no call; otherwise the calls of the mint with the current prompt; success sets hash and flag and schedules the refresh; failure shows its message and keeps the previous hash |

## Left out

- Network, storage, wallet and model SDK calls. They are outcome parameters, not I/O.
  - The uploads are single outcomes.
  - The File and Blob built from the image and the metadata are not modelled. Nor are the
    file names, `JSON.stringify` or the contract ABI.
- Concurrency and timers.
  - Two handlers running at once, and the busy flags while a handler awaits.
  - The 60-second race is the `TxTimedOut` outcome.
  - The 3-second delayed refresh is the `refreshScheduled` result plus the separate
    `RefreshUserNFTs` method.
  - The 500 ms auto-scroll.
- Lengths count characters, not UTF-16 code units.
  - `prompt.length > 500` and `prompt.length > 100` differ for prompts outside the Basic
    Multilingual Plane.
- JsText.ToLower: lower-cases ASCII letters only. Addresses are hexadecimal.
- Conversions of numbers.
  - `Number` and `BigInt` are unbounded naturals here, with no loss of precision above 2^53.
  - A non-numeric eligibility count is the absent value.
- JSON values are kept only to the extent the code reads them.
  - Non-string `name`, `description` and `image` fields are not modelled.
  - A non-string `prompt` is kept only as non-string.
  - A client reply body that is `null` or not JSON makes reading `.error` or `.imageUrl`
    throw, so it is a failed request (`RequestFailed`); a primitive JSON body reads as a
    reply with neither field (`Replied(status, None, None)`).
- Ipfs.UploadImageResult: its contract states the message prefix of a failure, not the rest
  of the message (the thrown message or the rejected locator).
- Date handling is not modelled.
  - `Date.now()` and the two `toISOString()` readings are parameters.
  - `toLocaleDateString` is not modelled: the last-creation line yields the time in
    milliseconds.
- The `onGenerate` callback, the statistics grid (Total NFTs, Free Today), the colour of the
  remaining count, JSX, styling, animation and console logging.
- The other components and files of the application are not part of this model:
  - `QuantumParticles.tsx`, `Footer.tsx`, `NFTGallery.tsx`, `NFTMintSuccess.tsx`,
    `NFTMintForm.tsx`, `ConnectWallet.tsx`;
  - `app/page.tsx`, `lib/contracts.ts`.
