# Talkori learning session — a verified model

Talkori is a Korean vocabulary flashcard web application. A learner opens a
chapter ("day") from the roadmap, picks a word card, and studies the word in
a detail view. That view shows up to ten example sentences ("pattern
variations"), can step to the next or previous word of the chapter, and plays
audio clips fetched from a CDN by a fixed naming convention. This project
models the logic inside the application's single component, `src/App.jsx`:

- `strings.dfy` (module `Strings`): the JavaScript string built-ins the URL
  scheme relies on. These are `String(n)` for a non-negative integer, with its
  inverse `ParseDecimal`; `padStart` with a one-character fill; and `includes`,
  proved against an explicit "occurs at position i" description.
- `curriculum.dfy` (module `Curriculum`): chapters, words and examples as
  values. It also holds the `findIndex` lookup of the studied word by id, as a
  specification function and as the linear scan, and the navigation decision
  of `navigateWord`.
- `audio_url.dfy` (module `AudioUrl`): `getAudioUrl`, the wire contract with
  the media host. A word clip is `<base>/w_<id>.mp3` and an example clip is
  `<base>/w_<id>_ex_<NN>.mp3`. Here `<base>` is `https://talkori.b-cdn.net/audio_tk`
  and `<NN>` is the one-based example number, zero-padded to at least two
  digits. `ParseExampleUrl` reads the example index back out and is proved to
  invert it.
- `playback.dfy` (module `Playback`): the speed toggle 1.0 → 0.8 → 0.6 → 1.0
  (rates are integer tenths: 10, 8, 6), and the choice of the URL handed to
  the audio element. That URL is a text-to-speech demo clip when the requested
  URL still contains the placeholder `your-bunny`, and the requested URL
  otherwise.
- `session.dfy` (module `Session`): the `App` state as the class
  `LearningSession`. Its fields are `activeChapter`, `activeWord`,
  `currentExIdx` and `playbackRate`, plus `startedClips`, the clips started by
  `playAudio`. Its methods are the click handlers. Each method keeps the
  session invariant `Valid()` and states the whole new state.

Word ids are used exactly as `String(wordId)` gives them and are not trimmed
(`AudioUrl.IdIsNotTrimmed`). `playAudio` creates a new audio element on every
call and never stops the previous one. So the model does not promise that at
most one clip plays at a time; `startedClips` keeps every started clip.

## Model

| member | source | states |
|---|---|---|
| `Strings.NatToString` | src/App.jsx:89 | `String(n)`: a non-empty string of decimal digits, one digit exactly when n < 10, no leading zero |
| `Strings.ParseNatToString` | src/App.jsx:89 | reading the decimal form of n back gives n |
| `Strings.NatToStringInjective` | src/App.jsx:89 | different numbers have different decimal forms |
| `Strings.ParseIgnoresLeadingZeros` | src/App.jsx:89 | zeros put in front of a numeral leave its value unchanged |
| `Strings.PadStart` | src/App.jsx:89 | `padStart(width, fill)`: the input unchanged (never truncated), preceded by as many fill characters as it is shorter than `width`, and by none when it is already that long |
| `Strings.Includes` | src/App.jsx:108 | `includes(sub)` is true exactly when sub occurs at some position of the string |
| `AudioUrl.ExampleNumberSpec` | src/App.jsx:89 | `String(i + 1).padStart(2, '0')` is all digits, at least two long, exactly two long iff i < 99, has value i + 1 and ends with the unpadded decimal form |
| `AudioUrl.GetAudioUrl` | src/App.jsx:84-92 | every clip URL starts with `<base>/w_<id>` and ends with `.mp3` |
| `AudioUrl.ExampleUrlRoundTrip` | src/App.jsx:88-90 | the example index can be read back from an example clip's URL |
| `AudioUrl.WordUrlIsNoExampleUrl` | src/App.jsx:86-87 | a word clip's URL is never read as one of the same word's example clips |
| `AudioUrl.ClipUrlsDistinct` | src/App.jsx:84-92 | two example clips of a word have the same URL iff their indices are equal, and no example clip shares the word clip's URL |
| `AudioUrl.ExampleNumberSamples` | src/App.jsx:89 | example index 0 is numbered "01", index 9 is "10", index 99 is "100" |
| `AudioUrl.BaseUrlValue` | src/App.jsx:13-16 | the base of every clip URL is `https://talkori.b-cdn.net/audio_tk` |
| `AudioUrl.WordUrlSample` | src/App.jsx:86-87 | word "7" has its clip at `<base>/w_7.mp3` |
| `AudioUrl.FirstExampleUrlSample` | src/App.jsx:88-90 | word "7" has its example 0 at `<base>/w_7_ex_01.mp3` |
| `AudioUrl.TenthExampleUrlSample` | src/App.jsx:88-90 | word "7" has its example 9 at `<base>/w_7_ex_10.mp3` |
| `AudioUrl.NumericIdMatchesText` | src/App.jsx:85 | a numeric id held exactly (below 2^53) names the same clips as its decimal text |
| `AudioUrl.IdIsNotTrimmed` | src/App.jsx:85 | the id is used as given: " 7 " and "7" name different clips |
| `Playback.NextRate` | src/App.jsx:116 | the next rate is always 1.0, 0.8 or 0.6; it differs from a rate in the cycle; a rate outside the cycle falls back to 1.0; 0.6 is reached exactly from 0.8 |
| `Playback.ThreePressesReturn` | src/App.jsx:116 | three presses bring 1.0, 0.8 and 0.6 back to themselves |
| `Playback.TogglePeriod` | src/App.jsx:115-117 | from a rate in the cycle, n presses give the same rate as n mod 3 presses |
| `Playback.CycleVisitsAllRates` | src/App.jsx:99 | starting from the initial 1.0, presses give 0.8, then 0.6, then 1.0 |
| `Playback.PlayTarget` | src/App.jsx:105-108 | the demo clip when the URL contains `your-bunny`, otherwise the URL itself |
| `Playback.ConfiguredUrlsPlayAsBuilt` | src/App.jsx:107-108 | with the configured host, every clip URL of an id without `your-bunny` is played as built, never replaced by the demo clip |
| `Curriculum.IndexOfId` | src/App.jsx:237 | `findIndex` by id: -1 iff no word has the id, otherwise the first position holding it |
| `Curriculum.MemberIsFound` | src/App.jsx:237 | `findIndex` finds every word that belongs to the list: the index is in range and holds a word with that id, never -1 |
| `Curriculum.FindWordIndex` | src/App.jsx:237 | the linear scan returns exactly `IndexOfId` |
| `Curriculum.Neighbour` | src/App.jsx:240-246 | a move always targets a position inside the chapter |
| `Curriculum.NextMovesForward` | src/App.jsx:240-243 | "next" from the word at position k moves to k + 1 when it exists |
| `Curriculum.NextAtLastCompletes` | src/App.jsx:244-246 | "next" from the last word completes the day |
| `Curriculum.PrevAtFirstStays` | src/App.jsx:240-248 | "prev" from the first word does nothing |
| `Curriculum.PrevMovesBack` | src/App.jsx:240-243 | "prev" from the word at position k > 0 moves to k - 1 |
| `Curriculum.MissingIdNavigation` | src/App.jsx:237-246 | an id absent from the chapter counts as position -1: "next" moves to the first word (or completes an empty day), "prev" does nothing |
| `Curriculum.NextThenPrev` | src/App.jsx:239-248 | with distinct ids, "next" then "prev" returns to the starting word |
| `Curriculum.PrevThenNext` | src/App.jsx:239-248 | with distinct ids, "prev" then "next" returns to the starting word |
| `Session.LearningSession.constructor` | src/App.jsx:95-99 | the session starts on the first chapter with no word, example 0, rate 1.0 and no clip started |
| `Session.LearningSession.PlayAudio` | src/App.jsx:103-113 | one more clip is started, at the current rate, on the chosen target URL; nothing else changes |
| `Session.LearningSession.ToggleSpeed` | src/App.jsx:115-117 | the rate advances along the cycle and stays in it; nothing else changes |
| `Session.LearningSession.SelectChapter` | src/App.jsx:156 | the clicked chapter becomes active and the studied word is cleared |
| `Session.LearningSession.SelectWord` | src/App.jsx:205 | the clicked word becomes active and the example index resets to 0 |
| `Session.LearningSession.SelectExample` | src/App.jsx:357-360 | the example index becomes the clicked one and its clip, `getAudioUrl(id, idx)`, is started; nothing else changes |
| `Session.LearningSession.PlayWordAudio` | src/App.jsx:301 | the word's own clip is started; nothing else changes |
| `Session.LearningSession.PlayCurrentExample` | src/App.jsx:330 | the selected example's clip is started; nothing else changes |
| `Session.LearningSession.BackToList` | src/App.jsx:256 | the studied word is cleared; nothing else changes |
| `Session.LearningSession.NavigateWord` | src/App.jsx:237-248 | the studied word moves to the neighbour with the example index reset to 0, or is cleared after the last word, or is left alone before the first word; the studied word's index is never -1; the session invariant is kept |
| `Session.NavigationScenario` | src/App.jsx:237-248 | in a chapter of three words with distinct ids, starting at the first word, "prev", "next", "next", "next" leave the studied word at the first, second and third word and then none (day completed) |

## Left out

- Rendering: the JSX layout, Tailwind classes and the inline style block are presentation only.
- The audio element itself: `new Audio(...)`, the asynchronous `play()` promise and its `console.log` catch are browser I/O. The model records each started clip, with its URL and rate, in `startedClips`. Playback failures are not modelled.
- The demo clip's URL is built with `encodeURIComponent`, a library call. It is kept as one fixed, already encoded constant.
- `alert("Day Completed!")`, the sidebar open/close flag and the `showNote` toggle are UI-only side effects.
- The `CURRICULUM` literal and its dummy-word generator are data. The session takes its chapter list as a constructor argument. Chapters keep only id, title, subtitle and words; their description, grammar focus and colour classes are display data.
- The playback rate is a float in the source, compared only against 1.0 and 0.8. It is modelled as integer tenths. The `{playbackRate}x` label is presentation.
- No grouping of flat lesson records into chapters and no trimming of word ids: `src/App.jsx` does neither.
- Strings.PadStart: models a one-character fill only, the only kind the source uses; JavaScript's truncation of longer fill strings is not modelled.
- Curriculum.WordId: numeric ids are non-negative integers below 2^53, the ones a JavaScript number holds exactly and `String(...)` writes in plain decimal. Fractional, negative and larger numbers (which `String(...)` may write as `1e+21`) are not modelled.
- Session.LearningSession.SelectWord and SelectExample take the position of the clicked card or button rather than the element itself; the source only offers elements of the rendered lists.
- The "not found" case of `navigateWord` (index -1) cannot arise inside the session, whose invariant keeps the studied word in the open chapter (`Curriculum.MemberIsFound`); it is stated for any word list by `Curriculum.MissingIdNavigation`.
- The detail view reads `activeWord.examples[currentExIdx]` while rendering (line 236). For a word whose example list is empty that read is `undefined`, and the render then throws when it reads the example's fields (lines 315, 321 and 324). The model still lets such a word be selected (`Valid()` allows `currentExIdx == 0` with no examples); rendering is not modelled.
