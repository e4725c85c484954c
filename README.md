# PaintbrushJS pixel filters, modelled in Dafny

PaintbrushJS applies image filters to `<img>` elements and CSS background
images on a web page. It draws the image onto a canvas and reads the canvas
as a flat, row-major RGBA byte array (`pixels.data`, four entries per pixel).
Then it rewrites that array in place and draws it back. The repository keeps
the filter engine in three versions that have drifted apart, and one
experimental fragment:

- v0.3, `paintbrush.js`. It has these filters:
  - per-pixel: greyscale, mosaic, noise, posterize, sepia and tint;
  - 3x3 convolutions read from an untouched copy of the image: edges, emboss, matrix and sharpen;
  - blur, which calls a Gaussian blur routine.
- v0.2, `demo/script/paintbrush-0.2.js`. Compared with v0.3:
  - its mosaic anchor is computed from the linear pixel index;
  - posterize has no opacity;
  - its one convolution (`filter-matrix`, a normalised sharpen kernel) reads from the same array it writes, and samples the kernel transposed.
- v0.1, `demo/paintbrush.js`:
  - filters: greyscale, noise, sepia and tint;
  - a length-based `createColor` and a substring-based hex decode;
  - a noise that only darkens;
  - parameters collected one `createParameter` call at a time.
- The kernel fragment, `demo/script/paintbrush-0.2-kernel.js`: an unrolled 3x3 convolution with explicit `prevRow`/`nextRow` offsets, and an in-place `normalizeMatrix`.

The model has one module per concern.

- `Pixels`: the buffer and its combinators.
  - The buffer is an `array<int>`.
  - `setRGB` is a method. `WithRGB` is its value-level counterpart.
  - `Sequential` models the in-place row-major pass; `Pointwise` models its order-independent reading.
  - Every number stored into the buffer goes through an abstract conversion `store: real -> int`, which stands for the `Uint8ClampedArray` conversion.
- `Color`: blending, clamping, `createColor`, `parseInt(…, 16)` and the bit-mask split into r, g and b.
- `Kernel`: kernel sums, the preset kernels and `normalizeMatrix`.
- `Convolution`: the 3x3 sum, as the accumulating loop (`KernelSums`) and as its specification (`ConvSum`).
- `Mosaic`: the v0.3 anchor, with JavaScript's truncating `%`.
- `RandomNoise`: the three `noise` functions.
- `Posterize`: the posterize arithmetic.
- `Params`: `getFilterParameters` of v0.2 and v0.3, with the element's `data-pb-*` attributes as a map.
- `Paintbrush03`, `Paintbrush02` and `Paintbrush01`: each version's `applyFilters`, per-pixel loop, `applyMatrix` and `processFilters` dispatch, with imperative methods proved against specification functions.
- `InPlaceSpot`: a worked 4x3 image on which v0.2's in-place convolution and v0.3's copy-based one differ.
- `KernelFragment`: the fragment.

Each version's `processFilters` returns `None` where the source's `initializeBuffer` yields nothing: an image with zero width or height.

## Model

| member | source | states |
|---|---|---|
| Color.FindColorDifference | paintbrush.js:454-456 | the blend returns src at dif 0 and dest at dif 1, and src when dest equals src; the distance moved from src is dif times dest minus src |
| Color.BlendBetween | paintbrush.js:454-456 | for 0 <= dif <= 1 the blend lies between src and dest, in either order |
| Color.BlendPixel | paintbrush.js:182-188 | blending a whole pixel returns the pixel at amount 0 and the target at amount 1, and keeps a pixel already equal to the target |
| Color.CheckRGBBoundary | paintbrush.js:352-360 | the clamp always returns a byte, leaves a byte unchanged, sends negatives to 0 and values over 255 to 255 |
| Color.CheckRGBBoundaryIdempotent | paintbrush.js:352-360 | clamping twice equals clamping once |
| Color.Trunc | paintbrush.js:224-229 | for x of magnitude at least 1e-6 and below 1e21, `parseInt` of a number truncates toward zero: within 1 below a non-negative value, within 1 above a negative one |
| Color.LuminanceOfGrey | paintbrush.js:183 | the greyscale weights sum to 0.99, so a grey pixel v maps to 0.99 v, which is darker when v > 0 |
| Color.DoubleChars | paintbrush.js:447-449 | `replace(/(.)/g, '$1$1')` doubles every character of a string without line terminators, in order |
| Color.StripHash | paintbrush.js:445 | `replace(/^#/, '')` removes exactly one leading '#' and nothing else |
| Color.CreateColorMeaning | paintbrush.js:443-451 | createColor strips one '#', doubles each character of a 3-character remainder, and returns any other remainder unchanged |
| Color.CreateColorHashOptional | paintbrush.js:443-451 | createColor gives the same result with or without a leading '#' |
| Color.HexDigit | paintbrush.js:138 | a hex digit's value is below 16 |
| Color.HexValue | paintbrush.js:138 | the value of n hex digits is below 16^n |
| Color.HexValueAppend | paintbrush.js:138 | the value of the concatenation a+b is value(a) times 16 to the power of the length of b, plus value(b) |
| Color.HexPrefixLength | paintbrush.js:138 | `parseInt(s, 16)` reads the longest hex prefix: all hex, and followed by a non-hex character or the end |
| Color.ParseHex | paintbrush.js:138 | `parseInt(s, 16)` is NaN exactly when s is empty or does not start with a hex digit |
| Color.ParseHexDigits | paintbrush.js:138 | on a string of hex digits, parseInt returns their value |
| Color.HexPrefixAll | paintbrush.js:138 | on a string of hex digits, the prefix parseInt reads is the whole string |
| Color.SplitRGBBytes | paintbrush.js:139 | the masks and shifts pick bits 16-23, 8-15 and 0-7 of src as r, g and b |
| Color.SplitRGBRoundTrip | paintbrush.js:137-139 | each channel of the split is in [0,255], and for src < 2^24 r*65536 + g*256 + b == src |
| Color.SplitThreeBytes | paintbrush.js:139 | splitting three packed bytes gives those bytes back |
| Color.HexSix | paintbrush.js:138 | six hex digits are worth the three 2-digit pairs packed as bytes |
| Color.TintSixDigits | paintbrush.js:137-139 | the tint target of a 6-digit colour is the value of its three digit pairs, with or without '#' |
| Color.HexColorBytes | paintbrush.js:138-139 | parsing then splitting six hex digits yields the values of the digit pairs |
| Color.HexPair | paintbrush.js:448 | a doubled hex digit d is worth 17 d |
| Color.ShorthandExpanded | paintbrush.js:447-449 | a 3-digit shorthand expands to "aabbcc" |
| Color.TintThreeDigits | paintbrush.js:137-139 | the tint target of a 3-digit shorthand is 17 times each digit, with or without '#' |
| Color.DoubledBytes | paintbrush.js:137-139 | parsing and splitting "aabbcc" gives 17a, 17b, 17c |
| Color.DefaultTintIsWhite | paintbrush.js:137-139 | the default tint colour "#FFF" decodes to (255, 255, 255) |
| Kernel.DivideAll | demo/script/paintbrush-0.2.js:439-441 | dividing every entry by d keeps the length, and each new entry times d is the old entry |
| Kernel.SumDivideAll | demo/script/paintbrush-0.2.js:434-443 | the divided kernel sums to the old sum over d |
| Kernel.NormalizedSumsToOne | demo/script/paintbrush-0.2.js:434-443 | a kernel with nonzero sum sums to 1 after normalizeMatrix |
| Kernel.NormalizeKeepsUnitSum | demo/script/paintbrush-0.2.js:434-443 | normalizeMatrix leaves a kernel that already sums to 1 unchanged |
| Kernel.NormalizeMatrix | demo/script/paintbrush-0.2.js:434-443 | the two loops, summing and then dividing in place, leave the array equal to the old entries divided by the old sum |
| Kernel.PresetSums | paintbrush.js:98-134 | the emboss and sharpen kernels sum to 1, the box blur to 0.999, the edges kernel to 0 |
| Kernel.SumOfNine | demo/script/paintbrush-0.2.js:435-438 | the summing loop over a 3x3 kernel adds its nine entries |
| Kernel.SharpenUnchangedByNormalize | demo/script/paintbrush-0.2.js:353-373 | the v0.2 sharpen kernel has nonzero sum and normalizeMatrix leaves it unchanged |
| Mosaic.JsRem | paintbrush.js:193-196 | JavaScript's % on a non-negative dividend is at most the dividend and below the divisor's magnitude |
| Mosaic.RemoveRem | paintbrush.js:198-199 | subtracting the remainder lands on a multiple of the size in the same block, whose remainder is 0 |
| Mosaic.MosaicAnchor | paintbrush.js:190-200 | the mosaic anchor never comes after the pixel |
| Mosaic.MosaicAnchorAt | paintbrush.js:190-200 | the anchor is the pixel at column x - x%size, row y - y%size |
| Mosaic.MosaicTrivialSize | paintbrush.js:190-200 | with size 1 (or 0, or -1) every pixel is its own anchor |
| Mosaic.MosaicAnchorFixed | paintbrush.js:190-200 | the anchor is its own anchor |
| Mosaic.MosaicSameBlock | paintbrush.js:190-200 | two pixels share an anchor exactly when they lie in the same size x size block |
| RandomNoise.Int32 | paintbrush.js:348 | the 32-bit conversion of `>>` stays in the Int32 range and keeps values already in it |
| RandomNoise.Noise03Range | paintbrush.js:347-349 | for a draw in [0,1), v0.3 noise(n) lies in [(n>>1) - n, n>>1], and equals n>>1 at draw 0 |
| RandomNoise.Noise02Range | demo/script/paintbrush-0.2.js:449-451 | for a draw in [0,1), v0.2 noise(n) lies in [floor(-n/2), floor(n/2)] |
| RandomNoise.Noise01Range | demo/paintbrush.js:269-271 | for n > 0 and a draw in [0,1), v0.1 noise(n) lies in [floor(-n/2), -1], so it only darkens |
| Posterize.PosterizeBand | paintbrush.js:224-229 | with areas = 256/n, parseInt(c / areas) is the band c*n/256, below n |
| Posterize.PosterizeLevels | paintbrush.js:224-229 | with areas 256/n and values 255/(n-1), posterize maps every byte to a byte |
| Posterize.PosterizeBlack | paintbrush.js:224-229 | posterize maps 0 to 0 |
| Posterize.PosterizeWhite | paintbrush.js:224-229 | for 2 <= n <= 256 posterize maps 255 to 255 |
| Posterize.DefaultPosterizeLevels | paintbrush.js:224-229 | with the default amount 5, bytes fall into the five levels 0, 63, 127, 191, 255 at thresholds 52, 103, 154, 205 |
| Posterize.PosterizeTwoLevels | paintbrush.js:224-229 | with amount 2 (areas 128, values 255) a byte below 128 becomes 0 and any other becomes 255 |
| Params.HyphenateLower | paintbrush.js:391-393 | the hyphenated parameter name has no capital letters |
| Params.HyphenateNoCapitals | paintbrush.js:391-393 | a name without capitals is left as it is |
| Params.HyphenateAppend | paintbrush.js:391-393 | hyphenation works character by character: it distributes over concatenation |
| Params.HyphenateCapital | paintbrush.js:391-393 | a capital becomes '-' followed by its lower case |
| Params.OneCapitalName | paintbrush.js:389-394 | a camel-case name with one capital maps to "data-pb-" + prefix + "-" + lower-case letter + rest |
| Params.TintColorAttribute | paintbrush.js:389-394 | "tintColor" is read from the attribute "data-pb-tint-color" |
| Params.Divide | paintbrush.js:404-405 | a positive number divided by 0 is Infinity; otherwise the quotient times the divisor is the dividend |
| Params.OverriddenAll | paintbrush.js:389-398 | the override loop keeps exactly the default keys |
| Params.OverrideFromAttributes | paintbrush.js:389-398 | the loop over the defaults replaces a value by its data-pb-* attribute exactly when that attribute is truthy |
| Params.OverriddenEverywhere | paintbrush.js:389-398 | a map with the default keys that agrees with the override rule at every key is the loop's result |
| Params.TintColourOverride | paintbrush.js:401 | a truthy "data-pb-tint-colour" replaces tintColor; otherwise tintColor and all other keys are unchanged |
| Params.WithPosterizeValues | paintbrush.js:404-405 | posterizeAreas and posterizeValues are added and no other key changes |
| Params.GetFilterParameters | paintbrush.js:367-408 | the method builds the parameter map of its specification from defaults and attributes |
| Params.FilterParametersKeys | paintbrush.js:367-408 | the result has every default key plus posterizeAreas and posterizeValues |
| Params.FilterParametersOverride | paintbrush.js:389-398 | any other default key holds its attribute's text when that attribute is truthy, else the default |
| Params.FilterParametersTint | paintbrush.js:389-401 | tintColor comes from "data-pb-tint-colour" if truthy, else from "data-pb-tint-color" if truthy, else the default |
| Params.FilterParametersPosterize | paintbrush.js:404-405 | posterizeAreas = 256/amount and posterizeValues = 255/(amount-1), from the final posterizeAmount |
| Pixels.CoordinatesRoundTrip | paintbrush.js:342-344 | convertCoordinates(x, y, w) decodes back to column x and row y |
| Pixels.CoordinatesOfPixel | paintbrush.js:342-344 | every pixel number is convertCoordinates of its own column and row |
| Pixels.PixelOfCoordinates | paintbrush.js:342-344 | p == convertCoordinates(x, y, w) exactly when p has column x and row y |
| Pixels.EntryDecode | paintbrush.js:342-344 | buffer entry 4*(x + y*w) + c has channel c, column x and row y |
| Pixels.EntryEncode | paintbrush.js:342-344 | every buffer entry is the entry of its own column, row and channel |
| Pixels.EntryInRange | paintbrush.js:342-344 | a pixel inside a w x h image addresses an entry inside its buffer |
| Pixels.StoreByte | paintbrush.js:459-464 | storing a byte keeps it as it is |
| Pixels.StoreKeepsBytes | paintbrush.js:459-464 | storing a pixel's own bytes gives the pixel back |
| Pixels.SetRGB | paintbrush.js:459-464 | setRGB writes r, g and b into index..index+2 and changes no other entry |
| Pixels.WithRGB | paintbrush.js:459-464 | the value-level setRGB keeps the buffer's length |
| Pixels.WithRGBAt | paintbrush.js:459-464 | after a write, entries index..index+2 hold the stored channels and every other entry is unchanged |
| Pixels.WithRGBElsewhere | paintbrush.js:459-464 | a write to one pixel leaves every other pixel's entries unchanged |
| Pixels.WritePixel | paintbrush.js:459-464 | writing three entries changes exactly R, G and B of that pixel |
| Pixels.WriteBackOwn | paintbrush.js:459-464 | writing a pixel's own values back leaves the buffer unchanged |
| Pixels.WithRGBBytes | paintbrush.js:459-464 | a write keeps every entry a byte and keeps alpha |
| Pixels.IterateLength | demo/script/paintbrush-0.2.js:379-422 | repeated in-place updates that keep the length keep the buffer's length |
| Pixels.IterateKept | demo/script/paintbrush-0.2.js:379-422 | an entry no update between two steps touches keeps its value |
| Pixels.IterateFixed | demo/script/paintbrush-0.2.js:379-422 | updates that leave the buffer unchanged leave it unchanged at every step |
| Pixels.IterateBytes | demo/script/paintbrush-0.2.js:379-422 | updates that keep bytes keep the buffer all bytes |
| Pixels.Sequential | paintbrush.js:149-157 | the in-place loop over the first n pixels keeps the length |
| Pixels.SequentialUnfold | paintbrush.js:149-157 | the pass over n pixels is the pass over n-1 followed by pixel n-1 reading the current buffer |
| Pixels.SequentialSettled | paintbrush.js:149-157 | once the loop has passed a pixel, later iterations do not change it |
| Pixels.SequentialBytes | paintbrush.js:149-157 | with a byte store, the loop keeps all entries bytes and never changes alpha |
| Pixels.Pointwise | paintbrush.js:149-157 | the pixel-by-pixel reading of a pass keeps the length |
| Pixels.SequentialPointwise | paintbrush.js:149-157 | when each pixel's result reads only its own pixel, the in-place loop equals the order-independent map |
| Pixels.AllDone | paintbrush.js:149-157 | when every pixel has been visited the buffer equals the final image |
| Pixels.DonePixelKept | paintbrush.js:149-157 | a visited pixel that the final image leaves as it was still holds its original value |
| Pixels.CurrentPixelUntouched | paintbrush.js:149-157 | the pixel being visited still holds its original value |
| Convolution.TapEntry | paintbrush.js:290 | every tap of an interior pixel addresses an entry inside the buffer |
| Convolution.TapAt | paintbrush.js:290 | the tap entry is convertCoordinates(i + w - 1, j + h - 1) << 2, and its G and B are the next two entries |
| Convolution.ConvSumNine | paintbrush.js:287-303 | the convolution sum is the nine weighted taps |
| Convolution.SumStep | paintbrush.js:299-301 | one tap adds sample times weight to the running sum |
| Convolution.AddTap | paintbrush.js:290-301 | the inner loop body advances the R, G and B sums by one tap |
| Convolution.KernelSums | paintbrush.js:283-304 | the nested kernel loops compute the convolution sum of each channel |
| Convolution.TermSwap | demo/script/paintbrush-0.2.js:390-402 | v0.2's transposed tap with a symmetric weight equals the straight tap |
| Convolution.ConvSumSymmetric | demo/script/paintbrush-0.2.js:390-402 | for a symmetric kernel the transposed sampling gives the straight sum |
| Convolution.ConvFlat | paintbrush.js:287-303 | over a flat neighbourhood of value v the sum is v times the kernel's sum |
| Convolution.SharpenOneOff | demo/script/paintbrush-0.2.js:353-356 | the sharpen kernel over a flat v with one tap u gives v + (u - v) * 9 at the centre, v - (u - v) elsewhere |
| Paintbrush03.AnchorEntry | paintbrush.js:190-200 | the mosaic anchor entry is pixel-aligned and never after the current pixel |
| Paintbrush03.ApplyFilters | paintbrush.js:173-248 | the method writes pixel index with the filter's result (or nothing) and changes no other entry |
| Paintbrush03.PassResult | paintbrush.js:149-157 | the per-pixel pass keeps the length and never changes alpha |
| Paintbrush03.AnchorKeepsColour | paintbrush.js:190-206 | the anchor entry is unchanged by the mosaic pass (a blend of v with v) |
| Paintbrush03.AnchorPixelKept | paintbrush.js:190-206 | the anchor pixel is unchanged by the mosaic pass |
| Paintbrush03.PixelOutIgnoresAnchor | paintbrush.js:180-245 | every filter except mosaic ignores the anchor |
| Paintbrush03.MosaicReadsOriginal | paintbrush.js:149-157 | in the row-major in-place loop every read of the anchor sees its original value |
| Paintbrush03.PassReadsOriginal | paintbrush.js:149-157 | each pixel of the in-place loop computes what it would from the untouched image |
| Paintbrush03.PassStep | paintbrush.js:149-157 | one loop iteration extends the visited prefix of the final image by one pixel |
| Paintbrush03.FilterPass | paintbrush.js:149-157 | the in-place loop over all pixels produces the order-independent pass |
| Paintbrush03.OpacityZeroEntry | paintbrush.js:173-248 | at opacity 0 a blending filter leaves every entry unchanged |
| Paintbrush03.OpacityZeroIdentity | paintbrush.js:173-248 | at opacity 0 a blending filter leaves the image unchanged |
| Paintbrush03.NoiseZeroEntry | paintbrush.js:208-222 | noise with amount 0 leaves every entry unchanged |
| Paintbrush03.NoiseZeroIdentity | paintbrush.js:208-222 | noise with amount 0 leaves the image unchanged |
| Paintbrush03.NoiseEntry | paintbrush.js:208-222 | each colour entry becomes clamp(c + noise); mono uses one draw for R, G and B, colour one draw per channel |
| Paintbrush03.NoCaseKeeps | paintbrush.js:142-157 | blur, edges, emboss, matrix and sharpen have no case in applyFilters, so the pass leaves the image unchanged |
| Paintbrush03.GreyscaleFullEntry | paintbrush.js:182-188 | at greyscale opacity 1 each colour entry becomes the luminance of its pixel |
| Paintbrush03.GreyscaleFull | paintbrush.js:182-188 | at greyscale opacity 1 R, G and B are equal |
| Paintbrush03.TintFull | paintbrush.js:238-243 | at tint opacity 1 every pixel becomes the tint colour |
| Paintbrush03.PosterizeTwoLevels03 | paintbrush.js:224-229 | posterize amount 2 (areas 128, values 255) at opacity 1 turns every colour channel to 0 below 128 and to 255 from 128 |
| Paintbrush03.MosaicFull | paintbrush.js:190-206 | at mosaic opacity 1 every pixel takes its anchor's original colour |
| Paintbrush03.MosaicBlocksUniform | paintbrush.js:190-206 | at mosaic opacity 1 two pixels of the same block get the same colour |
| Paintbrush03.PassEntryByte | paintbrush.js:173-248 | every entry of a pass is a byte |
| Paintbrush03.PassBytes | paintbrush.js:173-248 | the pass keeps the image all bytes |
| Paintbrush03.Convolved | paintbrush.js:279-320 | the convolution keeps the length and leaves the border and alpha unchanged |
| Paintbrush03.MatrixStart | paintbrush.js:279-280 | before the loops nothing has been written |
| Paintbrush03.MatrixPixelUntouched | paintbrush.js:279-320 | the pixel being visited still holds its original value |
| Paintbrush03.MatrixStep | paintbrush.js:286-318 | writing pixel (i, j) from the copy extends the column-major visited region by one pixel |
| Paintbrush03.MatrixNextColumn | paintbrush.js:279-280 | finishing a column moves the loop to the top of the next one |
| Paintbrush03.MatrixAllDone | paintbrush.js:279-320 | after the last column the buffer equals the convolved image |
| Paintbrush03.ApplyMatrix | paintbrush.js:252-325 | applyMatrix writes findColorDifference(amount, sum over the copy, original) into every interior entry in place, and leaves the border and alpha unchanged |
| Paintbrush03.ConvolvedAmountZero | paintbrush.js:307-318 | at amount 0 the convolution leaves the image unchanged |
| Paintbrush03.ConvolvedFlat | paintbrush.js:283-318 | on a flat neighbourhood v the result is the blend towards v times the kernel's sum |
| Paintbrush03.EdgesOnFlat | paintbrush.js:98-105 | the edges kernel maps a flat neighbourhood to (1 - amount) times the original |
| Paintbrush03.UnitKernelOnFlat | paintbrush.js:283-318 | a kernel summing to 1 leaves a flat neighbourhood unchanged |
| Paintbrush03.ConvolvedBytes | paintbrush.js:279-320 | the convolution keeps the image all bytes |
| Paintbrush03.ProcessFilters | paintbrush.js:72-169 | dispatch draws nothing for an empty image; otherwise it runs one convolution or blur, then the per-pixel pass unless excluded |
| Paintbrush03.EdgesIsConvolution | paintbrush.js:98-105 | edges is the edges-kernel convolution; the per-pixel pass that follows changes nothing |
| Paintbrush03.ProcessedBytes | paintbrush.js:72-169 | every filter except blur keeps the length, keeps all bytes and never changes alpha |
| Paintbrush03.Defaults03Keys | paintbrush.js:370-386 | the default posterizeAmount is 5 and the default tintColor "#FFF" |
| Paintbrush03.DefaultPosterize03 | paintbrush.js:404-405 | the default amount gives areas 51.2 and values 63.75 |
| Paintbrush02.AnchorEntry02 | demo/script/paintbrush-0.2.js:287-290 | the v0.2 anchor pos is at most index and congruent to it mod 4 |
| Paintbrush02.BackByWholePixels | demo/script/paintbrush-0.2.js:288-290 | stepping back by whole pixels stays on the same channel |
| Paintbrush02.ApplyFilters02 | demo/script/paintbrush-0.2.js:271-337 | the method writes pixel index with the v0.2 filter's result and changes no other entry |
| Paintbrush02.Pass02 | demo/script/paintbrush-0.2.js:113-121 | the v0.2 in-place loop keeps the length |
| Paintbrush02.Pass02Unfold | demo/script/paintbrush-0.2.js:113-121 | the loop over n pixels is the loop over n-1 followed by pixel n-1 reading the current buffer |
| Paintbrush02.FilterPass02 | demo/script/paintbrush-0.2.js:113-121 | the imperative loop produces the sequential pass |
| Paintbrush02.PassResult02 | demo/script/paintbrush-0.2.js:113-121 | the pixel-by-pixel reading keeps the length |
| Paintbrush02.PassResult02At | demo/script/paintbrush-0.2.js:113-121 | each entry of the pixel-by-pixel reading is its pixel's own result |
| Paintbrush02.PixelOut02IgnoresAnchor | demo/script/paintbrush-0.2.js:277-335 | every v0.2 filter except mosaic ignores the anchor |
| Paintbrush02.OwnPixelOnly02 | demo/script/paintbrush-0.2.js:277-335 | every v0.2 filter except mosaic reads only the current pixel |
| Paintbrush02.Pass02Entrywise | demo/script/paintbrush-0.2.js:113-121 | for every filter except mosaic the loop's visited prefix agrees with the order-independent pass |
| Paintbrush02.Pass02Full | demo/script/paintbrush-0.2.js:113-121 | for every filter except mosaic the in-place loop equals the order-independent pass |
| Paintbrush02.Pass02NoCase | demo/script/paintbrush-0.2.js:110-122 | filters without a case in applyFilters (matrix among them) leave the image unchanged in the loop |
| Paintbrush02.Pass02Bytes | demo/script/paintbrush-0.2.js:271-337 | the v0.2 loop keeps all bytes and never changes alpha |
| Paintbrush02.Noise02Entry | demo/script/paintbrush-0.2.js:297-311 | each colour entry becomes checkRGBBoundary(c + noise), with one shared draw in mono mode |
| Paintbrush02.Posterize02Entry | demo/script/paintbrush-0.2.js:313-318 | with no opacity, each colour entry becomes the posterize level of its byte |
| Paintbrush02.Posterize02TwoLevels | demo/script/paintbrush-0.2.js:313-318 | with amount 2 every colour entry becomes 0 (below 128) or 255 |
| Paintbrush02.AmountZeroEntry02 | demo/script/paintbrush-0.2.js:271-337 | at amount 0 a blending v0.2 filter leaves every entry unchanged |
| Paintbrush02.AmountZero02 | demo/script/paintbrush-0.2.js:271-337 | at amount 0 a blending v0.2 filter leaves the image unchanged |
| Paintbrush02.AnchorsAgree | demo/script/paintbrush-0.2.js:287-290 | when the width is a multiple of the size, the v0.2 anchor equals the v0.3 anchor |
| Paintbrush02.AnchorBeforeBuffer | demo/script/paintbrush-0.2.js:287-290 | on a 7-wide image with size 5, pixel 7's v0.2 anchor entry is -8, while its block anchor is pixel 0 |
| Paintbrush02.AnchorOf7 | demo/script/paintbrush-0.2.js:288-290 | the v0.2 anchor entry of pixel 7, width 7, size 5, is -8 |
| Paintbrush02.CorrectAnchorOf7 | paintbrush.js:190-200 | the block anchor of pixel 7, width 7, size 5, is pixel 0 |
| Paintbrush02.MosaicBeforeBuffer | demo/script/paintbrush-0.2.js:287-295 | when the anchor entry is negative the pixel's colour entries receive NaN, stored as 0 |
| Paintbrush02.MosaicBlackPixel | demo/script/paintbrush-0.2.js:287-295 | on a 7-wide image with size 5, pixel 7 turns black |
| Paintbrush02.AnchorInOtherBlock | demo/script/paintbrush-0.2.js:287-290 | pixel 12 of a 7-wide image with size 5 takes pixel 3's colour, which lies in another block than its own anchor, pixel 5 |
| Paintbrush02.BlocksOf5 | paintbrush.js:190-200 | columns 5 and 3 lie in different blocks of size 5 |
| Paintbrush02.CorrectAnchorOf12 | paintbrush.js:190-200 | the block anchor of pixel 12, width 7, size 5, is pixel 5 |
| Paintbrush02.AnchorOf12 | demo/script/paintbrush-0.2.js:288-290 | the v0.2 anchor entry of pixel 12, width 7, size 5, is 12 (pixel 3) |
| Paintbrush02.StepPixel | demo/script/paintbrush-0.2.js:379-380 | every step of the x-outer, y-inner loop visits an interior pixel, and steps number pixels one to one |
| Paintbrush02.PixelStep | demo/script/paintbrush-0.2.js:379-380 | every interior pixel is visited at exactly one step |
| Paintbrush02.NextColumnStep | demo/script/paintbrush-0.2.js:379-380 | the same row in the next column comes h - 2 steps later |
| Paintbrush02.NextRow | demo/script/paintbrush-0.2.js:380 | the next row in a column is the next step |
| Paintbrush02.NextColumn | demo/script/paintbrush-0.2.js:379-380 | after the last row of a column comes the first row of the next column |
| Paintbrush02.LastColumn | demo/script/paintbrush-0.2.js:379 | after the last column every step has been taken |
| Paintbrush02.StepBound | demo/script/paintbrush-0.2.js:379 | the first step of every column is within the loop |
| Paintbrush02.InPlace02 | demo/script/paintbrush-0.2.js:379-422 | the in-place convolution after t steps keeps the length |
| Paintbrush02.Update02At | demo/script/paintbrush-0.2.js:379-422 | each step of the in-place convolution is one pixel write |
| Paintbrush02.Update02Length | demo/script/paintbrush-0.2.js:379-422 | each step keeps the length |
| Paintbrush02.InPlaceUnfold | demo/script/paintbrush-0.2.js:379-422 | step t+1 applies the write of pixel t to the buffer as it is after t steps |
| Paintbrush02.InPlaceKeptBetween | demo/script/paintbrush-0.2.js:379-422 | an entry none of the intervening steps writes keeps its value |
| Paintbrush02.MatrixWrite02 | demo/script/paintbrush-0.2.js:409-420 | one write keeps the length |
| Paintbrush02.MatrixWrite02At | demo/script/paintbrush-0.2.js:409-420 | one write stores the blended sum, computed from the current buffer, into the written entries and changes no other entry |
| Paintbrush02.MatrixWrite02Own | demo/script/paintbrush-0.2.js:409-420 | the step of pixel (x, y) writes its channels from the current buffer |
| Paintbrush02.MatrixWrite02Elsewhere | demo/script/paintbrush-0.2.js:409-420 | entries a step does not write keep their value |
| Paintbrush02.InPlaceBefore | demo/script/paintbrush-0.2.js:379-422 | before its own step, an entry still holds its original value |
| Paintbrush02.InPlaceSettled | demo/script/paintbrush-0.2.js:379-422 | after its own step, an entry keeps its value |
| Paintbrush02.InPlaceWritten | demo/script/paintbrush-0.2.js:379-422 | each interior entry ends as computed from the buffer as it was just before its own step |
| Paintbrush02.InPlaceKept | demo/script/paintbrush-0.2.js:379-422 | the border and alpha are never changed |
| Paintbrush02.InPlaceNeighbours | demo/script/paintbrush-0.2.js:379-422 | at its own step a pixel's left neighbour already holds its final value and its right neighbour its original one |
| Paintbrush02.InPlaceStep | demo/script/paintbrush-0.2.js:379-422 | the step of pixel (x, y) follows (x, y-1) and writes that pixel's blended sum from the current buffer |
| Paintbrush02.MatrixWrite02AmountZero | demo/script/paintbrush-0.2.js:417-420 | at amount 0 a write leaves the buffer unchanged |
| Paintbrush02.MatrixPixel02AmountZero | demo/script/paintbrush-0.2.js:417-420 | at amount 0 the computed pixel is the pixel itself |
| Paintbrush02.InPlaceAmountZero | demo/script/paintbrush-0.2.js:379-422 | at amount 0 the in-place convolution leaves the image unchanged |
| Paintbrush02.MatrixWrite02Bytes | demo/script/paintbrush-0.2.js:409-420 | a write keeps all bytes |
| Paintbrush02.InPlaceBytes | demo/script/paintbrush-0.2.js:379-422 | the in-place convolution keeps all bytes and never changes the border or alpha |
| Paintbrush02.MatrixStep02 | demo/script/paintbrush-0.2.js:380-421 | the body of the inner loop performs exactly the next step of the in-place convolution |
| Paintbrush02.SweepColumn02 | demo/script/paintbrush-0.2.js:380-421 | the inner loop performs the steps of one column |
| Paintbrush02.Sweep02 | demo/script/paintbrush-0.2.js:379-422 | the nested loops perform every step of the in-place convolution |
| Paintbrush02.ApplyMatrix02 | demo/script/paintbrush-0.2.js:341-425 | applyMatrix with the normalised sharpen kernel leaves the buffer as the complete in-place convolution |
| Paintbrush02.ProcessFilters02 | demo/script/paintbrush-0.2.js:73-131 | dispatch draws nothing for an empty image; otherwise it runs blur, or matrix then the pass, or the pass alone |
| Paintbrush02.Matrix02IsInPlace | demo/script/paintbrush-0.2.js:97-122 | filter-matrix results in the in-place sharpen convolution; the per-pixel pass that follows changes nothing |
| Paintbrush02.NoCase02Identity | demo/script/paintbrush-0.2.js:110-122 | edges, emboss and sharpen do nothing in v0.2; v0.2 registers none of the three (it has no such classes), so they are listed only for symmetry with v0.3 and cannot reach this loop from a page |
| Paintbrush02.ProcessedBytes02 | demo/script/paintbrush-0.2.js:73-131 | every filter except blur keeps the length, keeps all bytes and never changes alpha |
| Paintbrush02.Defaults02Keys | demo/script/paintbrush-0.2.js:174-187 | the v0.2 default posterizeAmount is 5 and the default tintColor "#FFF" |
| Paintbrush02.DefaultPosterize02 | demo/script/paintbrush-0.2.js:205-206 | the default amount gives areas 51.2 and values 63.75 |
| Paintbrush01.Substring | demo/paintbrush.js:211-214 | `substring(a, b)` returns at most b - a characters, and the slice itself when b is within the string |
| Paintbrush01.CreateColor01Meaning | demo/paintbrush.js:209-217 | v0.1 drops the first character of any 7- or 4-character string, doubles each character of a 3-character remainder, and returns anything else unchanged |
| Paintbrush01.CreateColor01Agrees | demo/paintbrush.js:209-217 | on 3 or 6 hex digits, with or without '#', v0.1 createColor agrees with v0.3's |
| Paintbrush01.CreateColor01Six | demo/paintbrush.js:209-217 | six hex digits, with or without '#', come back unchanged in both versions |
| Paintbrush01.CreateColor01Three | demo/paintbrush.js:209-217 | three hex digits, with or without '#', expand to "aabbcc" in both versions |
| Paintbrush01.CreateColor01DropsAnyFirst | demo/paintbrush.js:211 | a 4-character string not starting with '#' still loses its first character in v0.1, while v0.3 keeps it |
| Paintbrush01.ShortHexByte | demo/paintbrush.js:89 | parseInt of at most two characters, when a number, is below 256 |
| Paintbrush01.TintTarget01Bytes | demo/paintbrush.js:88-89 | every channel v0.1 decodes is a byte or NaN |
| Paintbrush01.HexPairValue | demo/paintbrush.js:89 | a 2-digit hex slice parses to its value |
| Paintbrush01.TintSix01 | demo/paintbrush.js:88-89 | for six hex digits the v0.1 substring decode agrees with v0.3's bit-mask decode, with or without '#' |
| Paintbrush01.DefaultTint01IsWhite | demo/paintbrush.js:88-89 | the default "#FFF" decodes to (255, 255, 255) |
| Paintbrush01.ApplyFilters01 | demo/paintbrush.js:227-265 | the method writes pixel index with the v0.1 filter's result and changes no other entry |
| Paintbrush01.WriteRGB | demo/paintbrush.js:234-236 | three element writes set R, G and B of the pixel and nothing else |
| Paintbrush01.Pass01 | demo/paintbrush.js:94-102 | the v0.1 loop keeps the length |
| Paintbrush01.Pass01Unfold | demo/paintbrush.js:94-102 | the loop over n pixels is the loop over n-1 followed by pixel n-1 |
| Paintbrush01.FilterStep01 | demo/paintbrush.js:95-101 | one iteration of the loop performs the next pixel's step |
| Paintbrush01.FilterPass01 | demo/paintbrush.js:94-102 | the imperative loop produces the sequential pass |
| Paintbrush01.Pass01Entry | demo/paintbrush.js:94-102 | each entry of the finished pass is its own pixel's result from the original image |
| Paintbrush01.GreyscaleFull01 | demo/paintbrush.js:232-237 | at greyscale amount 1 R, G and B become the pixel's luminance |
| Paintbrush01.Noise01Entry | demo/paintbrush.js:239-250 | each colour entry becomes c + noise without clamping; mono mode uses one draw for all three channels |
| Paintbrush01.Tint01Entry | demo/paintbrush.js:252-256 | each colour entry becomes its blend towards the decoded tint channel |
| Paintbrush01.Pass01Bytes | demo/paintbrush.js:227-265 | with a byte store the v0.1 loop keeps all bytes and never changes alpha |
| Paintbrush01.Pass01NoCase | demo/paintbrush.js:94-102 | a filter without a case, blur among them, leaves the image unchanged in the loop |
| Paintbrush01.ProcessFilters01 | demo/paintbrush.js:64-110 | dispatch draws nothing for an empty image; otherwise it runs blur, then the per-pixel loop over every pixel |
| Paintbrush01.Blur01IsBlurred | demo/paintbrush.js:83-102 | for blur the loop that follows the blur changes nothing |
| Paintbrush01.ProcessedBytes01 | demo/paintbrush.js:64-110 | every v0.1 filter keeps all bytes, and alpha is the image's (or the blur's) |
| Paintbrush01.CreateParameter01 | demo/paintbrush.js:160-165 | createParameter adds or replaces the key exactly when the value is truthy, and changes nothing else |
| Paintbrush01.CreatedValue01 | demo/paintbrush.js:179-187 | after the calls, a key is present exactly when it was a default or a call wrote it, and it holds the last truthy write or else the default |
| Paintbrush01.FilterParameters01Keys | demo/paintbrush.js:168-187 | the result has the default keys plus the tint-colour key when "data-pb-tint-colour" is truthy |
| Paintbrush01.NoWrite01 | demo/paintbrush.js:179-187 | a key no call names is never written |
| Paintbrush01.LastTwo01 | demo/paintbrush.js:185-187 | only the last two calls can write tintColor or the tint-colour key |
| Paintbrush01.TintColourIgnored01 | demo/paintbrush.js:185-187 | as written, tintColor comes only from "data-pb-tint-color" or the default, and "data-pb-tint-colour" only adds a key tintColour |
| Paintbrush01.ColourOnly01 | demo/paintbrush.js:187 | with only data-pb-tint-colour="#F00" tintColor stays "#FFF" |
| Paintbrush01.TintColourHonoured01 | demo/paintbrush.js:185-187 | writing the tint-colour call to tintColor makes "data-pb-tint-colour" win over "data-pb-tint-color", which wins over the default |
| InPlaceSpot.SpotImage | demo/script/paintbrush-0.2.js:379-422 | the worked 4x3 image: grey 100 everywhere except red 110 at pixel (1, 1) |
| InPlaceSpot.SpotSums | demo/script/paintbrush-0.2.js:390-402 | the sharpen sums at pixel (1, 1) of the spot image are 190, 100, 100 |
| InPlaceSpot.FirstStepPixel | demo/script/paintbrush-0.2.js:379-422 | on a 4x3 image the first step writes pixel (1, 1) |
| InPlaceSpot.SpotPixel | demo/script/paintbrush-0.2.js:409-420 | at amount 1 pixel (1, 1) is computed as (190, 100, 100) |
| InPlaceSpot.SpotWrite | demo/script/paintbrush-0.2.js:417-420 | writing (190, 100, 100) changes only entry 20 |
| InPlaceSpot.SpotFirstStep | demo/script/paintbrush-0.2.js:379-422 | after one step the image has 190 at entry 20 |
| InPlaceSpot.SpotSecondSum | demo/script/paintbrush-0.2.js:390-402 | at the second step the red sum of pixel (2, 1) reads the new 190 and is 10 |
| InPlaceSpot.SpotSecondPixel | demo/script/paintbrush-0.2.js:409-420 | the second step computes red 10 for pixel (2, 1) |
| InPlaceSpot.SpotTwoSteps | demo/script/paintbrush-0.2.js:379-422 | two steps are the second write applied after the first |
| InPlaceSpot.SpotSecondWrite | demo/script/paintbrush-0.2.js:417-420 | the second write stores 10 at entry 24 |
| InPlaceSpot.SpotInPlace | demo/script/paintbrush-0.2.js:379-422 | on the spot image the in-place convolution ends with 10 at entry 24 |
| InPlaceSpot.SpotCopySum | paintbrush.js:287-303 | sampled from the untouched copy, the red sum at pixel (2, 1) is 90 |
| InPlaceSpot.SpotCopyEntry | paintbrush.js:307-318 | the copy-based result at entry 24 is the stored blend of that sum |
| InPlaceSpot.SpotFromCopy | paintbrush.js:279-320 | the copy-based convolution ends with 90 at entry 24 |
| KernelFragment.FragmentKernelUnchanged | demo/script/paintbrush-0.2-kernel.js:23-40 | the fragment's kernel sums to 1 and normalizeMatrix leaves it unchanged |
| KernelFragment.Taps | demo/script/paintbrush-0.2-kernel.js:69-73 | the nine sampled entries are the three rows' centres at positions 1, 4 and 7 |
| KernelFragment.ApplyMatrixF | demo/script/paintbrush-0.2-kernel.js:67-75 | the sum is a number exactly when all nine samples lie in the buffer, and NaN otherwise |
| KernelFragment.KernelCase | demo/script/paintbrush-0.2-kernel.js:40-55 | the case normalises its kernel in place, computes the three sums and writes their blends into pixel index |
| KernelFragment.ShiftedRows | demo/script/paintbrush-0.2-kernel.js:45-46 | prevRow and nextRow, as written, address the pixel one column to the right in the row above and below |
| KernelFragment.CornerOutside | demo/script/paintbrush-0.2-kernel.js:45-50 | as written, the last interior pixel samples past the end of the buffer, so its sum is NaN |
| KernelFragment.RowsStayRed | demo/script/paintbrush-0.2-kernel.js:48-50 | for the green and blue calls the centre sample is that channel, but the row samples are red entries |
| KernelFragment.CornerImage | demo/script/paintbrush-0.2-kernel.js:67-75 | a 4x3 test image with 10 at entry 8 and 0 elsewhere |
| KernelFragment.ShiftedWitness | demo/script/paintbrush-0.2-kernel.js:45-48 | on the test image the as-written red sum at entry 20 is -10 |
| KernelFragment.FixedWitness | demo/script/paintbrush-0.2-kernel.js:45-48 | with rows at index -/+ 4 * imgWidth the red sum at entry 20 is 0 |
| KernelFragment.ConvTaps | demo/script/paintbrush-0.2-kernel.js:69-73 | the nine neighbourhood entries of an interior pixel lie in the buffer |
| KernelFragment.FixedTaps | demo/script/paintbrush-0.2-kernel.js:69-73 | with rows at index -/+ 4 * imgWidth the samples are the 3x3 neighbourhood of the pixel |
| KernelFragment.NineTermsConv | demo/script/paintbrush-0.2-kernel.js:67-75 | the unrolled nine-term sum over the neighbourhood is the convolution sum |
| KernelFragment.FixedRowsConvolve | demo/script/paintbrush-0.2-kernel.js:67-75 | with corrected rows the fragment's applyMatrix is the v0.3 convolution sum |
| KernelFragment.FixedChannel | demo/script/paintbrush-0.2-kernel.js:52-55 | with corrected rows each channel is the blend of that convolution sum |
| KernelFragment.FixedTripleConvolves | demo/script/paintbrush-0.2-kernel.js:48-55 | with corrected rows and per-channel offsets R, G and B are the blended convolution sums of their own channels |

## Left out

Browser and canvas I/O:
- DOM and canvas plumbing is not modelled: `initializeBuffer`, `getReferenceImage`, `placeReferenceImage`, `stashOriginal`, `stashInDom`, `destroyStash`, `flushDataAttributes`, `removeClasses`, `addAttribute`, `toDataURL`, `drawImage`/`getImageData` and `putImageData`. The image arrives as a byte sequence with its width and height.
- An empty image (zero width or height) draws nothing: `processFilters` returns `None`.
- `gaussianBlur` is called but not defined in these files. Its result is a parameter, `blurred`, of each `processFilters`.
- `console.log` in the fragment's `normalizeMatrix` is left out.
- demo/script/playground.js (UI controls) and demo/timing.js (render timing) are not part of this model.

Numbers and stores:
- IEEE-754 floating point is not modelled. Channel arithmetic is exact over `real`. The `Uint8ClampedArray` conversion on every store is the abstract function `store`, assumed only to return bytes and to keep whole bytes. No byte-exact result of a fractional blend is claimed.
- A read outside the buffer (`undefined`) makes a channel NaN, and NaN is handed to `store` as 0. The fragment's `ApplyMatrixF` and v0.2's negative mosaic anchor are modelled this way.
- `Math.random` is left out. Its draws are a parameter `rand(pixel, k)` in [0,1): mono noise uses draw 0; colour noise uses draws 1, 2 and 3 (v0.3 and v0.2 throw away the draw made before the mono test).

JavaScript coercion:
- Attribute values are strings that JavaScript silently coerces to numbers. `processFilters` takes typed settings records (`Settings`, `Settings02`, `Settings01`), so the conversion from the parameter map is not modelled. `toNumber` stands for the string-to-number coercion where `getFilterParameters` divides.
- `parseInt` is modelled on hex strings: the longest hex prefix, or NaN. Signs, whitespace and the "0x" prefix are not modelled.
- Color.Trunc: `parseInt` of a number is modelled as truncation toward zero. That is JavaScript's result only for 1e-6 <= |x| < 1e21 (and 0). Below 1e-6 or from 1e21 in magnitude, the number prints in exponent form and `parseInt` reads its leading digits (parseInt(3.90625e-7) is 3). Posterize reaches that range when the posterize amount is below 2.56e-4 in magnitude. With amount -0.0001 and a channel of 1, the source's band is -3 and its level is stored as 255, where the model gives 0.
- Non-integer mosaic sizes are not modelled (`mosaicSize` is an `int`). Negative sizes and size 0 are modelled.
- RandomNoise.Noise03Range: proved for amounts below 2^31. Beyond that, `>> 1` wraps around, and `Int32` models the wrap but no range is stated for it.

Model shapes and preconditions:
- Kernels are fixed at 3x3, the only size the source ever passes. `Math.sqrt(matrix.length)` and the kernel radius are constants.
- v0.3's commented-out normalisation (`paintbrush.js:271`) is not modelled, and neither is v0.3's unused `normalizeMatrix` (`paintbrush.js:328-337`). The v0.2 and fragment `normalizeMatrix` is `Kernel.NormalizeMatrix`.
- Kernel.NormalizeMatrix: requires a nonzero kernel sum. With a zero sum the source fills the kernel with NaN or Infinity, which `real` cannot express.
- Paintbrush01.FilterPass01: requires a buffer length that is a multiple of 4, as every canvas buffer is. The source's `i < length / 4` would also visit a final partial pixel.
- Paintbrush03.FilterPass: requires a buffer length that is a multiple of 4, as every canvas buffer is. With any other length, the source's `i < length >> 2` would leave a trailing partial pixel untouched; the model does not state that case.
- Paintbrush02.FilterPass02: requires a buffer length that is a multiple of 4 for the same reason as Paintbrush03.FilterPass; the source's loop bound is the same `length >> 2`.
- Paintbrush01.CreateParameter01 is a function on map values. In the source it mutates `params` and returns it, but nothing else holds a reference to the object, so the difference is not observable.
- v0.1's `getRGB` is the `Pixel` (and `Dest01`) constructor. Its channels in `Dest01` are `Option<nat>` because `parseInt` can give NaN.
- Paintbrush02.MatrixWrite02: past the last loop step it is the identity, a case the source never reaches.
- The kernel fragment is a `case` outside any `switch`. `KernelCase` models that case body alone. `index`, `imgWidth`, `thisPixel` and `kernelAmount` come from a surrounding loop that does not exist, so they are parameters.

## Findings

| source | as written | input that shows it | evidently intended | confidence | as-written member | corrected member |
|---|---|---|---|---|---|---|
| demo/script/paintbrush-0.2.js:288-290 | the mosaic offset uses the linear pixel index modulo the size | 7-pixel-wide image, size 5: pixel 7 (column 0, row 1) gets anchor entry -8, before the buffer, and turns black | anchor at column x - x%size and row y - y%size, as v0.3 computes it | high, not executed | Paintbrush02.MosaicBlackPixel | Mosaic.MosaicSameBlock |
| demo/script/paintbrush-0.2.js:288-290 | same offset, ahead of the block | 7-pixel-wide image, size 5: pixel 12 (column 5, row 1) reads anchor entry 12, pixel 3, which is in another block | every pixel copies the top-left pixel of its own block | high, not executed | Paintbrush02.AnchorInOtherBlock | Paintbrush03.MosaicBlocksUniform |
| demo/script/paintbrush-0.2.js:390-402 | the convolution samples `data`, the array it is writing | 4x3 grey image with red 110 at pixel (1, 1), sharpen at amount 1: entry 24 ends as 10, because pixel (2, 1) reads its already-sharpened left neighbour | sample an untouched copy, as v0.3 does; entry 24 is then 90 | high, not executed | InPlaceSpot.SpotInPlace | InPlaceSpot.SpotFromCopy |
| demo/paintbrush.js:187 | `data-pb-tint-colour` is stored under the key `tintColour`, which the tint filter never reads | attributes {data-pb-tint-colour: "#F00"}: tintColor stays "#FFF" | store it under `tintColor`, as v0.2 and v0.3 do | high, not executed | Paintbrush01.ColourOnly01 | Paintbrush01.TintColourHonoured01 |
| demo/script/paintbrush-0.2-kernel.js:45-46 | prevRow = index - (imgWidth - 1) * 4 and nextRow = index + (imgWidth + 1) * 4 point one pixel to the right | 4x3 image, 10 at entry 8, pixel (1, 1): the red sum is -10 instead of 0 | index -/+ imgWidth * 4, the pixel directly above and below | high, not executed | KernelFragment.ShiftedWitness | KernelFragment.FixedWitness |
| demo/script/paintbrush-0.2-kernel.js:48-50 | the green and blue calls reuse the red prevRow and nextRow | any pixel: the green sum's row samples are red entries | offset the rows by the channel, as the centre index is | medium, not executed | KernelFragment.RowsStayRed | KernelFragment.FixedTripleConvolves |
