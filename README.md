# Meme generator page: verified model of its logic

The repository is a single browser script, `script.js`, behind a meme-generator page. The script draws an
image at 400 by 400 on the page's canvas, swaps a speaker icon as the volume slider moves, fills a
voice selector, and reads the top and bottom captions aloud through the browser's speech synthesis.
Nothing in the script draws the captions on the canvas or handles the caption form. Most of the script is DOM and
canvas glue. This project models the four pieces of the script that hold real logic:

- `fit.dfy`, module `Fit`: `getDimmensions`, which scales an image to the canvas while keeping its
  aspect ratio. It fills the binding edge and centres the image on the other axis. Dimensions are
  `real`.
- `volume_icon.dfy`, module `VolumeIcon`: the icon choice in `volume_update`. The slider value is
  mapped to one of four icon levels by the thresholds 0, 33 and 66.
- `voices.dfy`, module `Voices`: the loop of `populateVoiceList`. It builds one selector option per
  voice, in order. The option's text is `name (lang)`, with ` -- DEFAULT` added for the default
  voice.
- `speech.dfy`, module `Speech`: the click handler installed by `speak`. The utterance is the top
  caption followed by the bottom caption, and an empty text speaks nothing. The voice scan keeps
  the last voice whose name equals the selected option's `data-name`.
- `wrappers.dfy`, module `Wrappers`: the `Option` type.

The two loops of the script are modelled twice. A specification function (`VoiceOptions`, and
`LastVoiceNamed` with the predicate `IsLastMatch`) states the result. A method with the source's loop
(`PopulateVoiceList`, `ChooseVoice`) is proved against it.

The doc comment of getDimmensions (script.js:33-34) promises that the image fits perfectly into the
canvas, and the comment at script.js:46 says it always fits inside. The code only tests the image's
own aspect ratio, so that holds only for a square canvas. The model follows
the code: containment is proved for a square canvas, and as an if-and-only-if in general
(`Fit.InsideIff`). See "## Findings".

## Model

| member | source | states |
|---|---|---|
| `Fit.GetDimensions` | script.js:43-70 | For positive sizes: the result keeps the image's aspect ratio and is positive. A taller-than-wide image fills the canvas height and starts at y = 0. A wide or square image fills the width and starts at x = 0. The slack is split evenly on both axes. |
| `Fit.RatioBelowOne` | script.js:47-50 | The test "aspect ratio below 1" holds exactly when the image is narrower than it is tall. |
| `Fit.PlacementDetermined` | script.js:47-69 | Any placement with the image's ratio, the same binding edge and even slack is the one getDimmensions returns, so these properties specify it completely. |
| `Fit.InsideIff` | script.js:50-67 | The placement lies inside the canvas if and only if the canvas is wide enough for a tall image scaled to full height, or tall enough for a wide image scaled to full width. |
| `Fit.SquareCanvasInside` | script.js:32-69 | On a square canvas, the size the script uses, the placed image always lies inside the canvas, as the doc comment promises. |
| `Fit.NonSquareCanvasOverflows` | script.js:59-67 | On a 400 wide, 100 tall canvas a 400 by 400 image is placed 400 tall at y = -150, outside the canvas. |
| `Fit.SquareCanvasExamples` | script.js:43-70 | On 400 by 400: a 2:1 image gets 400x200 at (0,100), a 1:2 image gets 200x400 at (100,0), and a square image fills the canvas. |
| `Fit.FitContain` | script.js:32-34 | Corrected fit, which compares the image with the canvas's aspect ratio. It keeps the ratio, touches one edge, centres the slack and always lies inside the canvas. |
| `Fit.FitContainIsLargest` | script.js:32-34 | No uniformly scaled copy of the image that fits the canvas is wider than the corrected fit, so it is the largest fit. |
| `Fit.FitContainOnSquareCanvas` | script.js:43-70 | On a square canvas the corrected fit equals getDimmensions. |
| `VolumeIcon.IconLevel` | script.js:94-105 | The level is at most 3. It is 0 exactly at volume 0 and 3 exactly from 66 up. |
| `VolumeIcon.IconLevelCountsThresholds` | script.js:94-105 | For slider values, the level is the number of thresholds among 1, 33 and 66 that the volume reaches. |
| `VolumeIcon.IconLevelBands` | script.js:94-105 | 0 gives level 0, 1..32 give level 1, 33..65 give level 2, and 66 and above give level 3. |
| `VolumeIcon.IconLevelMonotone` | script.js:94-105 | Raising a non-negative volume never lowers the level. |
| `VolumeIcon.IconSource` | script.js:95-104 | The icon path for a level is `./icons/volume-level-<level>.svg`. |
| `VolumeIcon.IconSourceInjective` | script.js:95-104 | Distinct levels show distinct icons. |
| `VolumeIcon.IconFor` | script.js:92-106 | The icon volume_update shows is `./icons/volume-level-<level>.svg` for the volume's icon level, so one of the four level icons. It is the muted icon exactly at volume 0. |
| `VolumeIcon.IconForExamples` | script.js:94-105 | Volume 0 shows the level-0 icon, 50 the level-2 icon and 99 the level-3 icon. |
| `Voices.Label` | script.js:164-167 | The option text starts with `name (lang)`. It ends with ` -- DEFAULT` if and only if the voice is the default. Its length leaves room for nothing else, so the text is exactly `name (lang)`, followed by the marker for the default voice. |
| `Voices.VoiceOptions` | script.js:162-172 | One option per voice, in input order. Option i carries voice i's label, its `data-lang` and its `data-name`. |
| `Voices.DefaultMarkedIff` | script.js:165-167 | In the built list, option i carries the default marker exactly when voice i is the default. |
| `Voices.PopulateVoiceList` | script.js:162-172 | The loop appends exactly the options of the specification, in order. |
| `Speech.LastMatchUnique` | script.js:137-141 | At most one choice is "the last voice with that name, or none if no voice has it", so the scan's outcome is determined. |
| `Speech.LastVoiceNamed` | script.js:137-141 | Returns the last voice whose name equals the selected data-name, or none when no voice matches. An absent attribute matches none. |
| `Speech.ChooseVoice` | script.js:137-141 | The overwriting forward scan ends with the last matching voice, or with none. |
| `Speech.OnSpeakClick` | script.js:127-145 | Nothing is spoken exactly when both captions are empty, which is when top + bottom is empty. With no selected option the handler throws. Otherwise it speaks top + bottom with the last voice matching the selected data-name, or the default voice. |
| `Speech.VoiceNameChosen` | script.js:136-141 | Selecting the name of voice k always finds a voice. The found voice has that name and is at k or later. |
| `Speech.DistinctNamesChooseOwnVoice` | script.js:137-141 | When no two voices share a name, voice k's name selects voice k. |
| `Speech.SelectedOptionVoice` | script.js:136-141 | The option built for voice k carries voice k's name as `data-name` (script.js:170). With distinct names, selecting that option speaks with voice k. |

## Findings

| source | as written | input that shows it | evidently intended | confidence | as-written member | corrected member |
|---|---|---|---|---|---|---|
| script.js:50 | The branch compares the image's aspect ratio with 1 and never with the canvas's ratio. | Canvas 400 wide and 100 tall, image 400 by 400: height 400, startY -150. | The image fits inside the canvas for any canvas shape (doc comment, script.js:33-34). | medium: latent, because nothing calls getDimmensions (the `load` handler is a TODO, script.js:23-30); the script also only draws at 400 by 400 (script.js:12); not executed | `Fit.NonSquareCanvasOverflows` | `Fit.FitContain` |

## Left out

- Canvas and DOM work is not modelled: `getContext`, `drawImage` (including the 400 by 400 draw in `imageload`), `clearRect` in the clear handler, and resetting the caption fields. Also out: `getElementsByTagName` and setting `.disabled`, `.value` and `.src`. This is browser plumbing with no contract of its own.
- `voiceSelect.options[0] = null` in `populateVoiceList` is not modelled. `PopulateVoiceList` returns the options it appends, not the selector's whole option list.
- Image loading, the empty `load` listener, and the `addEventListener` / `onvoiceschanged` registrations are not modelled. They are asynchronous browser callbacks.
- The speech service calls are not modelled: `getVoices`, `new SpeechSynthesisUtterance` and `speak`. The voices are a parameter. The outcome `Spoken` stands for handing the utterance to `speak`, with the chosen voice as an index into that list.
- `console.log` calls are not modelled.
- Fit.GetDimensions: floating point is not modelled. Dimensions are exact reals, so the ratio equalities hold exactly, not within rounding. Zero or negative sizes are excluded by the precondition. For them the script computes degenerate placements (zero or negative sizes; NaN for a 0 by 0 image).
- VolumeIcon.IconLevel: the slider value is an integer. JavaScript's loose comparison of the slider's string value with numbers is not modelled. A negative value, which the slider cannot produce, falls into level 1, as in the code.
- The enable/disable flow of the buttons is not modelled. The script only enables the clear and speak buttons once at start-up.
