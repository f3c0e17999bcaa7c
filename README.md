# genai-eo-embeddings in Dafny

This project models the wrappers that a geospatial embedding pipeline puts
around external services and models:

- **Retrying remote calls** (`gemini.dfy`, `mistral.dfy`, with shared
  vocabulary in `remote.dfy`):
  - The multimodal wrapper's description and embedding loops. They are
    bounded by `max_retries`, sleep a fixed delay between attempts, and
    return an in-band sentinel string once they give up.
  - The second provider's embedding loop. Unlike the multimodal loops, it
    has no retry bound: it sleeps two seconds on the SDK's own error and
    lets every other exception through.
  - Each remote service is a sequence of outcomes that the loop consumes
    one entry per attempt. A ghost trace records the calls the loop sends
    and the pauses it sleeps.
- **Credential resolution** (`credentials.dfy`). A configured value names a
  file, and then the secret is the stripped file text, or it is the secret
  itself. The file system is a map from existing paths to file text.
  `Strip` is Python's `str.strip()` over the 29 characters `str.isspace`
  accepts.
- **Reverse geocoding** (`geocoder.dfy`, with `fixed4.dfy` for the
  `.4f` rendering of the coordinates).
  - The first service result is flattened into a map from each
    component's first type to its long name, minus the excluded types.
  - The coordinates are then written under `"coords"`, and the caller's
    extra attributes are merged on top.
- **Image-batch embedding** (`clay.dfy`):
  - Check for three channels.
  - Normalise each channel, and build the placeholder metadata.
  - Call the encoder, which is a function parameter.
  - Drop the final token, lay the rest on a `side x side` grid with
    `side = W / patch_size / 2`, and mean-pool.
- **World geometry** (`geom.dfy`). `get_world` replaces each multi-part
  geometry by its part of largest area (the first on a tie) and leaves
  every other column alone.

## Model

| member | source | states |
|---|---|---|
| Credentials.Strip | src/geoq/gemini.py:102 | the result neither starts nor ends with whitespace |
| Credentials.StripIsSlice | src/geoq/gemini.py:102 | what stripping keeps is a contiguous slice of the input, with only whitespace before and after it |
| Credentials.Resolve | src/geoq/gemini.py:100-102 | a value naming an existing file resolves to that file's stripped text (never padded); any other value resolves to itself |
| Credentials.StripOfPadded | src/iecdt/genai/mistral.py:13-15 | stripping removes exactly the surrounding whitespace and keeps all of the text between |
| Credentials.StripIdempotent | src/geoq/geocoder.py:10-12 | stripping a stripped secret changes nothing |
| Credentials.ResolveFileWithNewline | src/geoq/gemini.py:100-102 | a file holding "secret123\n" resolves to "secret123" |
| GeminiMultimodal.ParseDescriptionSentinel | src/geoq/gemini.py:169 | a string starts with the description sentinel prefix exactly when the error can be recovered from it, and the string is then prefix + error |
| GeminiMultimodal.ParseEmbeddingSentinel | src/geoq/gemini.py:190 | the same for the embedding sentinel "TEXT:::text:::fdl2025\n\n" + error of a given input text |
| GeminiMultimodal.DescriptionSentinelRoundTrip | src/geoq/gemini.py:169 | the error a description sentinel is built from is recovered exactly |
| GeminiMultimodal.EmbeddingSentinelRoundTrip | src/geoq/gemini.py:190 | the error an embedding sentinel is built from is recovered exactly |
| GeminiMultimodal.Budget | src/geoq/gemini.py:139-172 | the loop makes at least one attempt, and max_retries + 1 at most when max_retries is not negative |
| GeminiMultimodal.Attempts | src/geoq/gemini.py:139-172 | the retry state machine: one attempt per outcome, a failed round (call, then the pause if a delay is set) before each retry, ending on a call |
| GeminiMultimodal.RetriesTaken | src/geoq/gemini.py:139-172 | the retried attempts all fail, stay within the budget, and the attempt after them succeeds or is the last one the budget allows |
| GeminiMultimodal.AttemptsVerdict | src/geoq/gemini.py:159-169 | the loop returns the value of the attempt after the retried ones when it succeeds, and otherwise gives up with that attempt's error |
| GeminiMultimodal.SucceedsAfterFrom | src/geoq/gemini.py:139-172 | n failures and then a success within the budget return that success after exactly n failed rounds and one last call |
| GeminiMultimodal.ExhaustsFrom | src/geoq/gemini.py:163-172 | failures up to the end of the budget give up with the last error after the remaining failed rounds |
| GeminiMultimodal.ShapeFrom | src/geoq/gemini.py:139-172 | from any attempt on, the trace is some number of failed rounds, within the remaining budget, followed by exactly one last call |
| GeminiMultimodal.ReturnsIffSomeSuccess | src/geoq/gemini.py:137-172 | the loop returns a value if and only if some attempt within the budget succeeds |
| GeminiMultimodal.SuccessAfterFailures | src/geoq/gemini.py:137-172 | N failures then a success, with N <= max_retries: the success value, N + 1 calls, N pauses (0 without a delay), ending with the successful call |
| GeminiMultimodal.AllAttemptsFail | src/geoq/gemini.py:163-172 | when every attempt fails: max_retries + 1 calls, max_retries pauses with a delay (0 without one), and the loop gives up with the last error |
| GeminiMultimodal.TraceShape | src/geoq/gemini.py:177-193 | for any outcomes: 1 to Budget calls, all sending the same request; the trace is exactly Calls - 1 failed rounds (a call, then with a delay a pause of that length) followed by one last call; no pause without a delay |
| GeminiMultimodal.SentinelIsInBand | src/geoq/gemini.py:161-169 | a genuine description equal to the sentinel text reads exactly like exhausted retries |
| GeminiMultimodal.GeminiMultimodalModel.constructor | src/geoq/gemini.py:75-102 | the settings are stored as given, the prompt starts as the built-in one, and the key is resolved through the credential convention |
| GeminiMultimodal.GeminiMultimodalModel.SetGenerationPrompt | src/geoq/gemini.py:134-135 | the prompt becomes the given one, and nothing else changes |
| GeminiMultimodal.GeminiMultimodalModel.GenerateDescriptionForImage | src/geoq/gemini.py:137-172 | the loop returns the text of the retry state machine's verdict, or the sentinel on giving up; its trace is the machine's, and every call sends the image with the current prompt |
| GeminiMultimodal.GeminiMultimodalModel.GetEmbedding | src/geoq/gemini.py:175-193 | the loop returns the vector of the machine's verdict, or the sentinel built from the input text and the last error; its trace is the machine's |
| MistralEmbeddings.SdkErrorsThenResponse | src/iecdt/genai/mistral.py:26-37 | N SDK errors and then a response give {"api": first embedding} with the single key "api", after N + 1 calls and N pauses of 2 seconds |
| MistralEmbeddings.OtherExceptionPropagates | src/iecdt/genai/mistral.py:29-37 | any exception other than the SDK error is raised unchanged from the attempt that meets it, with no pause after it |
| MistralEmbeddings.EmptyResponseRaises | src/iecdt/genai/mistral.py:35 | a response without embeddings ends the loop with an IndexError, which is not retried |
| MistralEmbeddings.AnswerShape | src/iecdt/genai/mistral.py:29-37 | whatever the outcomes, a returned map has exactly the key "api" and every call sends the same request |
| MistralEmbeddings.Finish | src/iecdt/genai/mistral.py:31-37 | the attempt that ends the loop: a non-empty response gives exactly {"api": data[0]}; an empty one raises the IndexError of data[0]; another exception is raised unchanged |
| MistralEmbeddings.EmbedFrom | src/iecdt/genai/mistral.py:26-37 | the unbounded retry loop from a given attempt on, which always ends on a call |
| MistralEmbeddings.SdkErrorsFrom | src/iecdt/genai/mistral.py:29-37 | the number of SDK errors in a row before the first outcome that ends the loop |
| MistralEmbeddings.EmbedFromVerdict | src/iecdt/genai/mistral.py:29-37 | the loop's answer is what the first outcome that is not an SDK error finishes with |
| MistralEmbeddings.MistralEmbeddingsAPIModel.constructor | src/iecdt/genai/mistral.py:9-17 | the key is resolved through the credential convention, and the model is "mistral-embed" |
| MistralEmbeddings.MistralEmbeddingsAPIModel.GetName | src/iecdt/genai/mistral.py:23-24 | the name is "mistral-embed-api" |
| MistralEmbeddings.MistralEmbeddingsAPIModel.GenerateEmbeddingsForText | src/iecdt/genai/mistral.py:26-37 | the loop's answer and trace are those of the retry specification, for the request of the model and the one-element input [text] |
| Fixed4.RoundHalfEven | src/geoq/geocoder.py:31 | the result is within 0.5 of the input, and even on an exact tie |
| Fixed4.Units | src/geoq/geocoder.py:31 | the magnitude in units of 1/10000 is within half a unit of the exact magnitude |
| Fixed4.Format | src/geoq/geocoder.py:31 | the rendering ends in a point and exactly four digits |
| Fixed4.FormatRoundTrip | src/geoq/geocoder.py:31 | reading the rendering back gives exactly the value rounded to units of 1/10000, ties to even |
| Fixed4.ScaledError | src/geoq/geocoder.py:31 | the rounded value is within 1/20000 of the exact value |
| Fixed4.RenderingRoundTrip | src/geoq/geocoder.py:31 | a sign, integer part, point and four digits read back as the signed number of units they were built from |
| Fixed4.DecimalRoundTrip | src/geoq/geocoder.py:31 | the integer part's digits read back as that integer |
| Fixed4.DecimalNoLeadingZero | src/geoq/geocoder.py:31 | the integer part's digits start with '0' only for 0, which is written as the single digit "0" |
| Fixed4.FormatNoLeadingZero | src/geoq/geocoder.py:31 | after the optional minus sign, the rendering starts with '0' only when that digit is the whole integer part |
| Geocoding.FirstUntyped | src/geoq/geocoder.py:26-30 | the first component without types (whose types[0] raises), or the length when every component has a type |
| Geocoding.Flatten | src/geoq/geocoder.py:26-30 | the keys are exactly the first types that are not excluded, and no excluded type is a key |
| Geocoding.FlattenLastWins | src/geoq/geocoder.py:26-30 | a kept component that no later component shares its first type with supplies that key's long name |
| Geocoding.LastWith | src/geoq/geocoder.py:26-30 | the position of a component with the given first type such that no later component has it, or -1 when no component has it |
| Geocoding.FlattenValueSource | src/geoq/geocoder.py:26-30 | every value is the long name of the last component with that first type |
| Geocoding.Geocoder.constructor | src/geoq/geocoder.py:7-14 | the key is resolved through the credential convention |
| Geocoding.Geocoder.ReverseGeocode | src/geoq/geocoder.py:16-33 | an exception of the client is passed on unchanged; an empty result list or a component without types gives the IndexError, and otherwise the call succeeds. On success: the keys are the kept types, "coords" and the extras; extras override everything; "coords" holds the .4f renderings of lon and lat unless overridden; every other key keeps the flattened value |
| ClayWrapper.Normalize | src/geoembs/clay/wrapper.py:91-93 | the shape is kept, and every pixel of channel c becomes (x - mean[c]) / std[c] |
| ClayWrapper.NormalizeRoundTrip | src/geoembs/clay/wrapper.py:91-93 | the normalisation loses nothing: undoing it gives the batch back |
| ClayWrapper.NormalizedMeanIsZero | src/geoembs/clay/wrapper.py:91-93 | a pixel equal to its channel mean normalises to 0 |
| ClayWrapper.EncoderInputFor | src/geoembs/clay/wrapper.py:91-107 | the encoder gets the normalised batch, of the same shape, and metadata of [B, 4] zeros for time and latlon, gsd 10.0 and waves [1552, 1355, 1105] |
| ClayWrapper.PlaceholderMetadata | src/geoembs/clay/wrapper.py:95-101 | time and latlon are zeros of shape [B, 4], gsd is 10.0 and waves are [1552, 1355, 1105] |
| ClayWrapper.DropLast | src/geoembs/clay/wrapper.py:112 | every token but the final one is kept, in order, and an empty row stays empty |
| ClayWrapper.Grid | src/geoembs/clay/wrapper.py:111-116 | the rearrangement onto a side x side grid, every row of which has side cells (cell (h, w) by GridCell) |
| ClayWrapper.GridCell | src/geoembs/clay/wrapper.py:111-116 | grid cell (h, w) is token h * side + w |
| ClayWrapper.GridSumIsTokenSum | src/geoembs/clay/wrapper.py:111-118 | summing over the side x side grid is summing over the patch tokens it was laid out from |
| ClayWrapper.MeanPool | src/geoembs/clay/wrapper.py:118 | the pooled vector has the cells' width, and each coordinate times the number of cells is that coordinate's sum over the grid |
| ClayWrapper.PoolTokens | src/geoembs/clay/wrapper.py:109-118 | fails with the kept token count and side exactly when the kept tokens are not side * side, and with EmptyGridMean exactly when they are but the grid is empty and there are images; no other failure (the means themselves are stated by PoolTokensIsPatchMean) |
| ClayWrapper.PoolTokensIsPatchMean | src/geoembs/clay/wrapper.py:109-119 | pooling succeeds if and only if the tokens without the final one fill the grid. Then there is one row per encoder row, of the encoder's width, and coordinate d is the mean of coordinate d over the side * side patch tokens |
| ClayWrapper.FinalTokenIgnored | src/geoembs/clay/wrapper.py:112 | token rows that differ only in the final token give the same embeddings |
| ClayWrapper.BatchEmbeddings | src/geoembs/clay/wrapper.py:85-88 | the result is the channel error, carrying the channel count, if and only if the batch does not have 3 channels |
| ClayWrapper.ChannelCheckFirst | src/geoembs/clay/wrapper.py:85-107 | a wrong channel count is reported before, and independently of, the encoder |
| ClayWrapper.OneRowPerImage | src/geoembs/clay/wrapper.py:107-119 | an encoder that keeps the batch size gives one embedding per input image |
| ClayWrapper.SixteenPixelPair | src/geoembs/clay/wrapper.py:109-119 | two 16 x 16 images with patch size 8 and two tokens per image give two embeddings, each the image's single patch token |
| WorldGeometry.ArgMax | src/iecdt/data/geom.py:10 | the index is in range, its value is at least every other value, and every earlier value is strictly smaller (the first maximum) |
| WorldGeometry.ArgMaxUnique | src/iecdt/data/geom.py:10 | the first maximal index is the only index meeting that description |
| WorldGeometry.LargestPart | src/iecdt/data/geom.py:9-10 | gives an error exactly for a collection with no parts. A single geometry is kept. A collection becomes a single polygon that is one of its parts, with the largest area |
| WorldGeometry.LargestPartFirstOnTie | src/iecdt/data/geom.py:10 | among equally large parts, the first one is taken |
| WorldGeometry.LargestPartIdempotent | src/iecdt/data/geom.py:8-11 | applying the selection to its own result changes nothing |
| WorldGeometry.SelectLargestParts | src/iecdt/data/geom.py:7-11 | succeeds if and only if every geometry's selection succeeds. Then the result has the same length and order, and each entry is that geometry's largest part |
| WorldGeometry.GetWorld | src/iecdt/data/geom.py:5-14 | on success the geometry column holds the largest parts and every entry is a single polygon; on the error the frame is unchanged. The other columns never change, and every column keeps its length |

## Left out

- Every remote service is a parameter:
  - the generative model's chat session and file upload, and the embeddings endpoint of both providers, are sequences of outcomes, one per attempt;
  - the geocoding client is its answer to the single request, the list of results or the exception it raised.
  Client construction and `genai.configure` are not modelled.
- The temporary file and image save before each description attempt are not modelled. Their failures are part of the attempt's outcome.
- Verbose logging and the printed banner are not modelled.
- Wall-clock time is not modelled. A sleep appears only as a `Pause` event in the ghost trace.
- The generation configuration and safety settings are not modelled. The model stores temperature, top_p, max_output_tokens and verbose as given.
- The built-in description prompt is an uninterpreted constant, because its wording is configuration, not behaviour.
- GeminiMultimodal.GeminiMultimodalModel.GenerateDescriptionForImage: requires at least Budget(max_retries) outcomes. That is only the length of the scripted service, not a demand on the caller.
- GeminiMultimodal.GeminiMultimodalModel.GetEmbedding: the same requirement on the length of the scripted service.
- Delay: a sleep is a non-negative real. The ValueError that a negative `sleep_secs_before_retry` raises inside the exception handler is not modelled.
- MistralEmbeddings.MistralEmbeddingsAPIModel.GenerateEmbeddingsForText: requires that some outcome is not an SDK error. The source loops forever on an endless run of SDK errors, and that divergence is not modelled.
- Geocoding.Geocoder.ReverseGeocode:
  - `return_as_xml` is left out, because XML rendering is a library call.
  - A response missing its keys raises a KeyError in the source. Such a response cannot be built from the datatypes here.
  - The exclusion list is a parameter; its default is `DefaultExclusions`.
- Fixed4.Format: floats are the reals they denote, so there is no negative zero. The source renders -0.0 as "-0.0000", and the model renders 0 as "0.0000".
- ClayWrapper.Normalize: exact real arithmetic, not float64 followed by a float32 cast.
- ClayWrapper.BatchEmbeddings:
  - The source's NaN rows over an empty grid (side 0) are reported as `EmptyGridMean`.
  - A model patch size of 0 is reported as `ZeroPatchSize`, where the source raises a ZeroDivisionError.
  - A batch that is not 4-dimensional cannot be built from the `Batch` type.
- ClayWrapper: the checkpoint loading, the device placement, `print_device_info` and `to_device` are not modelled.
- ClayWrapper: the encoder is a function parameter. The pretrained model's internals are not part of this model.
- WorldGeometry.GetWorld: reading the bundled dataset is not modelled. The frame it produces is the argument.
- WorldGeometry: polygon areas are numbers carried by the parts. Computing an area from an outline is not modelled.
- WorldGeometry: collection parts are polygons, so nested collections are not modelled.
- src/iecdt/genai/gemini.py is not part of this model.
- The default argument values are named constants: the model names, 5 retries, and delays of 30 and 10 seconds. They are not defaults of the methods, because Dafny has none.
