/**
 * The learning session held by the `App` component: which chapter is open,
 * which word (if any) is studied in the detail view, which example is
 * selected, and the playback rate, together with the handlers that change
 * them. Every `playAudio` call creates a fresh audio element and starts it;
 * earlier clips are never stopped, so the session keeps the list of clips
 * it has started rather than a single "now playing" clip.
 */
module Session {
  import opened Wrappers
  import opened Curriculum
  import opened AudioUrl
  import opened Playback

  /** A started clip: the URL handed to the audio element and the rate (in tenths) it plays at. */
  datatype Clip = Clip(url: string, rate: int)

  class LearningSession {
    /** The chapters offered in the roadmap, fixed for the whole session. */
    const curriculum: seq<Chapter>

    var activeChapter: Chapter
    var activeWord: Option<Word>
    var currentExIdx: nat
    var playbackRate: int
    var startedClips: seq<Clip>

    /**
     * The session invariant: the open chapter is one of the curriculum's, the
     * rate is one of the three the toggle cycles through, and a studied word
     * belongs to the open chapter with the selected example either the first
     * or one of the word's examples.
     */
    ghost predicate Valid()
      reads this
    {
      && activeChapter in curriculum
      && InCycle(playbackRate)
      && (activeWord.Some? ==>
            && activeWord.value in activeChapter.words
            && (currentExIdx == 0 || currentExIdx < |activeWord.value.examples|))
    }

    /** The initial state: the first chapter, no word, the first example, normal speed, nothing played. */
    constructor (chapters: seq<Chapter>)
      requires chapters != []
      ensures Valid()
      ensures curriculum == chapters
      ensures activeChapter == chapters[0] && activeWord == None
      ensures currentExIdx == 0 && playbackRate == NormalRate && startedClips == []
    {
      curriculum := chapters;
      activeChapter := chapters[0];
      activeWord := None;
      currentExIdx := 0;
      playbackRate := NormalRate;
      startedClips := [];
    }

    /** `playAudio(url)`: start a new clip at the current rate, the demo clip if the host is unconfigured. */
    method PlayAudio(url: string)
      requires Valid()
      modifies this
      ensures Valid()
      ensures startedClips == old(startedClips) + [Clip(PlayTarget(url), playbackRate)]
      ensures activeChapter == old(activeChapter) && activeWord == old(activeWord)
      ensures currentExIdx == old(currentExIdx) && playbackRate == old(playbackRate)
    {
      var targetUrl := PlayTarget(url);
      startedClips := startedClips + [Clip(targetUrl, playbackRate)];
    }

    /** `toggleSpeed`: advance the rate along 1.0 -> 0.8 -> 0.6 -> 1.0. */
    method ToggleSpeed()
      requires Valid()
      modifies this
      ensures Valid()
      ensures playbackRate == NextRate(old(playbackRate))
      ensures activeChapter == old(activeChapter) && activeWord == old(activeWord)
      ensures currentExIdx == old(currentExIdx) && startedClips == old(startedClips)
    {
      playbackRate := NextRate(playbackRate);
    }

    /** Clicking chapter k in the roadmap: open it and leave the detail view. */
    method SelectChapter(k: nat)
      requires Valid()
      requires k < |curriculum|
      modifies this
      ensures Valid()
      ensures activeChapter == curriculum[k] && activeWord == None
      ensures currentExIdx == old(currentExIdx) && playbackRate == old(playbackRate)
      ensures startedClips == old(startedClips)
    {
      activeChapter := curriculum[k];
      activeWord := None;
    }

    /** Clicking word card k of the open chapter: study that word from its first example. */
    method SelectWord(k: nat)
      requires Valid()
      requires k < |activeChapter.words|
      modifies this
      ensures Valid()
      ensures activeWord == Some(old(activeChapter.words[k])) && currentExIdx == 0
      ensures activeChapter == old(activeChapter) && playbackRate == old(playbackRate)
      ensures startedClips == old(startedClips)
    {
      activeWord := Some(activeChapter.words[k]);
      currentExIdx := 0;
    }

    /** Clicking example button idx: select it and play its clip. */
    method SelectExample(idx: nat)
      requires Valid()
      requires activeWord.Some? && idx < |activeWord.value.examples|
      modifies this
      ensures Valid()
      ensures currentExIdx == idx
      ensures startedClips ==
              old(startedClips) + [Clip(PlayTarget(GetAudioUrl(old(activeWord.value.id), Some(idx))), old(playbackRate))]
      ensures activeChapter == old(activeChapter) && activeWord == old(activeWord)
      ensures playbackRate == old(playbackRate)
    {
      currentExIdx := idx;
      PlayAudio(GetAudioUrl(activeWord.value.id, Some(idx)));
    }

    /** The speaker button beside the headword: play the word's own clip. */
    method PlayWordAudio()
      requires Valid()
      requires activeWord.Some?
      modifies this
      ensures Valid()
      ensures startedClips ==
              old(startedClips) + [Clip(PlayTarget(GetAudioUrl(old(activeWord.value.id), None)), old(playbackRate))]
      ensures activeChapter == old(activeChapter) && activeWord == old(activeWord)
      ensures currentExIdx == old(currentExIdx) && playbackRate == old(playbackRate)
    {
      PlayAudio(GetAudioUrl(activeWord.value.id, None));
    }

    /** The large play button of the example card: play the selected example's clip. */
    method PlayCurrentExample()
      requires Valid()
      requires activeWord.Some?
      modifies this
      ensures Valid()
      ensures startedClips ==
              old(startedClips) + [Clip(PlayTarget(GetAudioUrl(old(activeWord.value.id), Some(old(currentExIdx)))), old(playbackRate))]
      ensures activeChapter == old(activeChapter) && activeWord == old(activeWord)
      ensures currentExIdx == old(currentExIdx) && playbackRate == old(playbackRate)
    {
      PlayAudio(GetAudioUrl(activeWord.value.id, Some(currentExIdx)));
    }

    /** "Back to List": leave the detail view. */
    method BackToList()
      requires Valid()
      modifies this
      ensures Valid()
      ensures activeWord == None
      ensures activeChapter == old(activeChapter) && currentExIdx == old(currentExIdx)
      ensures playbackRate == old(playbackRate) && startedClips == old(startedClips)
    {
      activeWord := None;
    }

    /**
     * `navigateWord(dir)`: locate the studied word in the open chapter by id
     * and step to its neighbour; past the last word the day is complete and
     * the detail view closes, before the first word nothing happens.
     */
    method NavigateWord(dir: Direction)
      requires Valid()
      requires activeWord.Some?
      modifies this
      ensures Valid()
      ensures old(IndexOfId(activeChapter.words, activeWord.value.id)) >= 0
      ensures match Neighbour(old(activeChapter.words), old(activeWord.value.id), dir)
              case MoveTo(j) => activeWord == Some(old(activeChapter.words)[j]) && currentExIdx == 0
              case DayCompleted => activeWord == None && currentExIdx == old(currentExIdx)
              case Stay => activeWord == old(activeWord) && currentExIdx == old(currentExIdx)
      ensures activeChapter == old(activeChapter) && playbackRate == old(playbackRate)
      ensures startedClips == old(startedClips)
    {
      var words := activeChapter.words;
      MemberIsFound(words, activeWord.value);
      var currentWordIndex := FindWordIndex(words, activeWord.value.id);
      var newIndex := if dir == Next then currentWordIndex + 1 else currentWordIndex - 1;
      if 0 <= newIndex < |words| {
        activeWord := Some(words[newIndex]);
        currentExIdx := 0;
      } else if dir == Next {
        activeWord := None;
      }
    }
  }

  /**
   * A walk through a three-word chapter with distinct ids: "prev" at the
   * first word stays, then "next" visits the second and third word and,
   * past the last, completes the day and closes the detail view.
   */
  method NavigationScenario(a: Word, b: Word, c: Word) returns (visited: seq<Option<Word>>)
    requires a.id != b.id && b.id != c.id && a.id != c.id
    ensures visited == [Some(a), Some(b), Some(c), None]
  {
    var words := [a, b, c];
    PrevAtFirstStays(words);
    NextMovesForward(words, 0);
    NextMovesForward(words, 1);
    NextAtLastCompletes(words);
    var session := new LearningSession([Chapter(1, "Day 1", "At the Convenience Store", words)]);
    session.SelectWord(0);
    session.NavigateWord(Prev);
    visited := [session.activeWord];
    session.NavigateWord(Next);
    visited := visited + [session.activeWord];
    session.NavigateWord(Next);
    visited := visited + [session.activeWord];
    session.NavigateWord(Next);
    visited := visited + [session.activeWord];
  }
}
