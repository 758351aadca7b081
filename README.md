# Yolk Lab social creative generator, modelled in Dafny

The Yolk Lab site has a page that renders social-media creatives onto a canvas:

- a background photo, scaled like CSS `object-fit: cover`;
- the Yolk logo;
- a title wrapped greedily to 90% of the canvas width;
- a subtitle, a description and a call-to-action button, stacked below the title.

This project models the logic behind that drawing, and proves what the code promises about it.

The drawing is modelled as a log of canvas calls (`Canvas.DrawCall`), each holding the coordinates it was given. The font-metrics call `ctx.measureText(s).width` is the parameter `measure: string -> real`. All arithmetic is exact `real` arithmetic.

Modules:

- `Canvas`: rectangles, the draw log, and `Math.min`/`Math.max`.
- `Text`: `String.prototype.split(' ')` and the inverse of it. Also the text a line builds up, where every word is followed by one space.
- `WordWrap`: `drawMultilineText`, built in three parts.
  - The loop is an imperative method (`FillLines`).
  - It is proved against the function `Wrap`, which places word after word.
  - `Wrap` is shown to be the unique wrapping that satisfies the declarative rule `IsGreedy`, in both directions.
- `Geometry`: the cover fit of the background photo, and the logo's position and size.
- `Creative`: the configuration record, the formats, title sizes, photos and templates, and `applyTemplate`.
- `Layout`: the arithmetic of `drawText`, and the order in which `generateCreative` draws.

## Model

| member | source | states |
|---|---|---|
| Text.Split | src/SocialCreatives.tsx:264 | `split(' ')` always yields at least one piece. No piece contains a space, and joining the pieces with single spaces gives the text back. |
| Text.SplitJoin | src/SocialCreatives.tsx:264 | On space-free words, splitting undoes joining, so `Split` and `Join` are inverse on both sides. |
| Text.LineText | src/SocialCreatives.tsx:270-276 | The text a line builds, one `word + ' '` at a time, is empty exactly when the line has no word, and otherwise ends in the space after its last word. |
| Text.LineTextIsJoin | src/SocialCreatives.tsx:270 | A line built as `word + ' '` per word is the words joined by spaces, plus one trailing space. |
| Text.LineTextAppend | src/SocialCreatives.tsx:270 | The text built for two word runs, one after the other, is the concatenation of their two texts. |
| WordWrap.Wrap | src/SocialCreatives.tsx:269-284 | Wrapping always gives at least one line, even for no words at all. |
| WordWrap.Place | src/SocialCreatives.tsx:270-281 | One word's placement decides only the current line. It adds at most one line, never changes the lines before the current one, and the word ends the last line. |
| WordWrap.WrapIsGreedy | src/SocialCreatives.tsx:269-282 | What `Wrap` computes satisfies `IsGreedy`. The lines hold the words in order. No line is empty. Each word after the first on a line kept that line within `maxWidth`. Each line after the first was opened because its first word did not fit after the line above. |
| WordWrap.GreedyIsWrap | src/SocialCreatives.tsx:269-282 | Any wrapping that satisfies `IsGreedy` is the one `Wrap` computes. With `WrapIsGreedy`, a wrapping is greedy if and only if it is `Wrap`'s. |
| WordWrap.GreedyDropLast | src/SocialCreatives.tsx:274-281 | Removing the last word from a greedy wrapping leaves a greedy wrapping of the other words. Placing that word back gives the original lines. |
| WordWrap.GreedyOpenLine | src/SocialCreatives.tsx:274-278 | Starting a new line for a word that does not fit keeps a wrapping greedy. |
| WordWrap.GreedyExtendLine | src/SocialCreatives.tsx:279-281 | Appending a word that fits to the current line keeps a wrapping greedy. |
| WordWrap.GreedyFirstWord | src/SocialCreatives.tsx:274 | The first word goes on the first line whatever its width, because of the `n > 0` guard. |
| WordWrap.PlaceOpens | src/SocialCreatives.tsx:274-278 | A word that is not the first, and whose test line is wider than `maxWidth`, opens a new line holding just that word. |
| WordWrap.PlaceExtends | src/SocialCreatives.tsx:279-281 | A word whose test line fits, or the first word, is appended to the current line. |
| WordWrap.LineCountBounds | src/SocialCreatives.tsx:274-284 | There is at least one line and at most one line per word, and every line holds a word. |
| WordWrap.FullLinesFit | src/SocialCreatives.tsx:270-281 | Every line of two or more words is at most `maxWidth` wide. Only a single word can overflow. |
| WordWrap.LineY | src/SocialCreatives.tsx:266-277 | Baseline k starts at `y` and is pushed down by `lineHeight` per break. With a non-negative `lineHeight` it never rises above `y`, and with a positive one every later line is strictly below `y`. |
| WordWrap.BlockHeight | src/SocialCreatives.tsx:284-287 | The block height is non-negative for a non-negative `lineHeight`, and positive when there is a line and `lineHeight` is positive. |
| WordWrap.LineYIsLinear | src/SocialCreatives.tsx:266-277 | The k-th baseline is `y + k * lineHeight`. |
| WordWrap.BlockHeightIsProduct | src/SocialCreatives.tsx:284-287 | The block height is the number of lines times `lineHeight`. |
| WordWrap.LineCalls | src/SocialCreatives.tsx:275-283 | One `fillText` call is made per line. |
| WordWrap.LineCallsAt | src/SocialCreatives.tsx:275-283 | The k-th call draws the text of line k at `x`, on baseline k. |
| WordWrap.WrapSpellsText | src/SocialCreatives.tsx:269-283 | The drawn lines, concatenated in order, give `words[0] + ' ' + words[1] + ' ' + …`: the text plus one trailing space. No word is lost, repeated or reordered. |
| WordWrap.LoopStart | src/SocialCreatives.tsx:265-267 | Before the loop nothing is drawn and the line is empty, with no breaks and `currentY == y`. |
| WordWrap.LoopBreak | src/SocialCreatives.tsx:274-278 | A word that does not fit and is not the first draws the pending line at `currentY`. The new line is that word plus a space, `currentY` grows by `lineHeight` and `lineCount` by one. |
| WordWrap.LoopAppend | src/SocialCreatives.tsx:279-281 | A word that fits, or the first word, is appended to the line, and nothing else changes. |
| WordWrap.LoopEnd | src/SocialCreatives.tsx:283-284 | After the last word, drawing the pending line completes the calls for every line of the wrap, and `lineCount + 1` is the number of lines. |
| WordWrap.Turn | src/SocialCreatives.tsx:270-281 | One turn of the loop body adds at most one line break. |
| WordWrap.Run | src/SocialCreatives.tsx:269-282 | After `n` turns there are at most `n` line breaks. |
| WordWrap.RunStep | src/SocialCreatives.tsx:270-281 | One turn from where the wrap of the first `n` words leaves the loop's variables ends where the wrap of the first `n + 1` words leaves them. |
| WordWrap.RunIsAfter | src/SocialCreatives.tsx:265-282 | After any number of turns, the loop's variables are the drawn lines, the pending line, the break count and the baseline of the wrap of the words so far. |
| WordWrap.FillLines | src/SocialCreatives.tsx:264-284 | The loop, with its invariant, makes exactly the calls for `Wrap(Split(text))`, and counts them. |
| WordWrap.DrawnLines | src/SocialCreatives.tsx:264-284 | The calls for a wrapped text are bounded by 1 and the word count. They spell the text back, and the k-th call is at `x` on baseline k. |
| WordWrap.DrawMultilineText | src/SocialCreatives.tsx:263-288 | `drawMultilineText` makes exactly the calls of the greedy wrap: between one and one per word, spelling the text back, the k-th call at `(x, y + k*lineHeight)`. It returns the number of lines times `lineHeight`. |
| Geometry.CoverFit | src/SocialCreatives.tsx:114-132 | For positive sizes, the drawn rectangle keeps the photo's aspect ratio and covers the canvas on both axes, with equality on one of them. It is centred, at `x = (W - w)/2 <= 0` and `y = (H - h)/2 <= 0`. |
| Geometry.WiderThanCanvas | src/SocialCreatives.tsx:120-125 | A photo wider than the canvas, fitted to the canvas height, keeps its aspect ratio and overflows sideways. |
| Geometry.TallerThanCanvas | src/SocialCreatives.tsx:126-131 | A photo no wider than the canvas, fitted to the canvas width, keeps its aspect ratio and overflows vertically. |
| Geometry.CoverFitIsSmallest | src/SocialCreatives.tsx:114-132 | Any other rectangle that keeps the aspect ratio and covers the canvas is at least as wide and at least as tall. |
| Geometry.CoverFitScale | src/SocialCreatives.tsx:114-132 | The photo is scaled uniformly by `max(W/w, H/h)`. |
| Geometry.LogoY | src/SocialCreatives.tsx:147-148 | The logo's top is at 15% + 3% of the height, inside the canvas. `drawText` recomputes the same expression at lines 200-202, and the model uses this one function for both. |
| Geometry.LogoSize | src/SocialCreatives.tsx:161 | The logo side is 8% of the shorter canvas side. |
| Geometry.LogoRect | src/SocialCreatives.tsx:160-165 | The logo is a square of that side, centred horizontally, with its top at `logoY`. |
| Geometry.LogoInsideCanvas | src/SocialCreatives.tsx:147-165 | On a canvas of positive size, the logo lies strictly inside it horizontally, and within the top 26% vertically. |
| Creative.FormatDimensions | src/SocialCreatives.tsx:85-89 | Square is 1080×1080, story 1080×1920 and landscape 1200×630. Every format is at least 1080 wide and 630 high. |
| Creative.CanvasMatchesPreview | src/SocialCreatives.tsx:542 | Each format's canvas has the aspect ratio of its preview pane: 1/1, 9/16 or 1200/630. |
| Creative.TitleFontOf | src/SocialCreatives.tsx:91-96 | Title font sizes range from 48 to 140, with line-height factors of 1.1 or 1.2. |
| Creative.TitleFontsGrow | src/SocialCreatives.tsx:91-96 | A larger title size has a larger font and a larger line pitch. |
| Creative.InitialConfig | src/SocialCreatives.tsx:69-83 | The page starts on the first photo of the selector, showing the texts of the first template. |
| Creative.InitialShowsFirstTemplate | src/SocialCreatives.tsx:69-83 | Choosing the first template at the start changes nothing, and choosing any other template changes the configuration. |
| Creative.ApplyTemplate | src/SocialCreatives.tsx:300-308 | `applyTemplate` takes the four texts from the template and leaves every other field unchanged. |
| Creative.ApplyTemplateUnique | src/SocialCreatives.tsx:300-308 | A configuration has `prev`'s styling and shows the template if and only if it is `ApplyTemplate(prev, t)`. |
| Creative.ApplyTemplateLastWins | src/SocialCreatives.tsx:300-308 | Applying the same template twice is the same as applying it once. After two templates, only the second one shows. |
| Canvas.Min | src/SocialCreatives.tsx:197 | `Math.min` gives the smaller argument: at most each, and equal to one of them. It also gives the logo size at line 161. |
| Canvas.Max | src/SocialCreatives.tsx:220-236 | `Math.max` gives the larger argument: at least each, and equal to one of them. It also gives the button label size at line 257. |
| Layout.Scale | src/SocialCreatives.tsx:197 | The text scale is the shorter canvas side over 1080. |
| Layout.TitleBlockOf | src/SocialCreatives.tsx:194-217 | The title is centred and wrapped at 90% of the width. It starts 8% of the height below the bottom of the logo. Its font and line pitch are positive on a canvas of positive size. |
| Layout.TitleClearsLogo | src/SocialCreatives.tsx:200-217 | Even at the largest size, the first title line, centred on `titleY`, stays below the logo's bottom edge. |
| Layout.DetailsOf | src/SocialCreatives.tsx:219-237 | Subtitle ≥ 42, description ≥ 36 and button label ≥ 28, each also at least its scaled size. The button is ≥ 400 and ≥ 35% wide, and ≥ 80 and ≥ 8% high. It is centred horizontally and vertically on `ctaY`. For positive height, the order is title bottom < subtitle < description < button. |
| Layout.CtaClearsDescription | src/SocialCreatives.tsx:230-247 | The button's top edge is below the description's baseline if and only if the canvas is taller than 500 px. |
| Layout.CtaClearsDescriptionInEveryFormat | src/SocialCreatives.tsx:85-89 | All three formats are taller than that, so the button never reaches up past the description. |
| Layout.DetailCalls | src/SocialCreatives.tsx:224-260 | The four calls after the title have all their texts centred on `centerX`. The texts spell subtitle, description and label, in that order. They descend whenever their baselines do. The one call that is not text is the button box with 16 px corners. |
| Layout.TextCalls | src/SocialCreatives.tsx:193-261 | `drawText` makes at least one title call and at most one per title word, followed by the four calls below the title. |
| Layout.DrawText | src/SocialCreatives.tsx:193-261 | `drawText` makes the title's calls and then the four detail calls. Every text is centred on `width/2`. On a canvas of positive size, each text is drawn strictly lower than the one before. The title calls spell the title back. |
| Layout.TextStack | src/SocialCreatives.tsx:217-234 | A title whose lines sit `lineHeight` apart, followed by the stack below it, is centred and strictly descending. |
| Layout.StackDescends | src/SocialCreatives.tsx:217-234 | Title baselines `lineHeight` apart, followed by three texts that each sit lower, descend throughout. |
| Layout.GenerateCreative | src/SocialCreatives.tsx:98-157 | The canvas takes the format's size. The calls are, in order: the photo into its cover-fit rectangle, the logo at `logoY`, and then `drawText`'s calls. Every text in the log is centred and lower than the text before it. |
| Layout.PicturesFirst | src/SocialCreatives.tsx:135-154 | Drawing the pictures before the texts leaves the texts' order and centring as they were. |

## Left out

- Canvas effects are not modelled: the blurred redraw of the canvas onto itself (lines 138-140), the dark overlay `fillRect` (143-144), shadows, fonts, colours, `textAlign` and `textBaseline`. Only the positions and texts of `drawImage`, `fillText` and `roundRect` are recorded.
- Asynchronous loading is not modelled: `img.onload`, the `Promise` in `drawLogo` and the `useEffect` regeneration. `GenerateCreative` draws in the order those callbacks complete.
- The photo's natural size is a parameter, because loading it is I/O.
- `measureText` is the uninterpreted parameter `measure`, because font metrics are foreign code.
- `generateCreative` returns early when there is no canvas element or no 2D context (lines 100 and 103). The model assumes both are present and does not represent the empty outcome.
- The logo's `Promise` (lines 171-190) has no `onerror` handler, so if the logo fails to load, `drawText` never runs. `GenerateCreative` models only the path where both pictures load.
- `measure` stands for `measureText` under the title font set at line 212. It is the only font `drawMultilineText` measures with.
- IEEE double rounding is not modelled: sizes and positions are exact reals.
- `downloadCreative` is not modelled. It creates a DOM anchor, calls `toDataURL`, and names the file with `Date.now()`.
- The form's other `setConfig` handlers are plain field updates bound to inputs, and are part of the UI markup, not of this model.
- src/App.tsx, src/Info.tsx, src/main.tsx and eslint.config.js are not part of this model. They hold static markup, routing, analytics set-up and tool configuration.
- Geometry.CoverFit: requires positive photo and canvas sizes. With a zero size the source divides by zero and draws with `Infinity` or `NaN`, which exact reals cannot express.
- Layout.GenerateCreative: requires a photo of positive size for the same reason. The canvas sizes always come from `FormatDimensions`, so they are always positive.
- WordWrap.DrawMultilineText: states its returned height as `BlockHeight(|calls|, lineHeight)`, the baseline one line below the last. `BlockHeightIsProduct` proves that this equals `|calls| * lineHeight`, the product the source returns. The method returns that product.
- Layout.DrawText: promises strictly descending baselines only for a canvas of positive size. Every format's canvas has a positive size.
