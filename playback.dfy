/**
 * Playback settings: the speed toggle and the choice of the URL actually
 * handed to the audio element. Rates are integer tenths of normal speed
 * (10 is 1.0x, 8 is 0.8x, 6 is 0.6x): the application only ever compares
 * the rate against these three literals.
 */
module Playback {
  import opened Wrappers
  import opened Strings
  import opened Curriculum
  import opened AudioUrl

  const NormalRate: int := 10
  const SlowRate: int := 8
  const SlowestRate: int := 6

  /** The three rates the toggle cycles through. */
  predicate InCycle(rate: int) {
    rate == NormalRate || rate == SlowRate || rate == SlowestRate
  }

  /** The `toggleSpeed` updater: 1.0 -> 0.8 -> 0.6 -> 1.0; anything else falls back to 1.0. */
  function NextRate(prev: int): (next: int)
    ensures InCycle(next)
    ensures InCycle(prev) ==> next != prev
    ensures !InCycle(prev) ==> next == NormalRate
    ensures next == SlowestRate <==> prev == SlowRate
  {
    if prev == NormalRate then SlowRate
    else if prev == SlowRate then SlowestRate
    else NormalRate
  }

  /** The rate after pressing the speed button n times. */
  function Toggled(rate: int, n: nat): int
    decreases n
  {
    if n == 0 then rate else NextRate(Toggled(rate, n - 1))
  }

  /** Three presses bring every rate of the cycle back to itself. */
  lemma ThreePressesReturn(rate: int)
    requires InCycle(rate)
    ensures Toggled(rate, 3) == rate
  {
  }

  /** So only the number of presses modulo 3 matters. */
  lemma {:induction false} TogglePeriod(rate: int, n: nat)
    requires InCycle(rate)
    ensures Toggled(rate, n) == Toggled(rate, n % 3)
    decreases n
  {
    if n >= 3 {
      TogglePeriod(rate, n - 3);
      ToggledAdd(rate, n - 3, 3);
      ThreePressesReturn(Toggled(rate, n - 3));
      assert Toggled(rate, n) == Toggled(rate, n - 3);
      assert (n - 3) % 3 == n % 3;
    }
  }

  /** Pressing m then n times is pressing m + n times. */
  lemma {:induction false} ToggledAdd(rate: int, m: nat, n: nat)
    ensures Toggled(Toggled(rate, m), n) == Toggled(rate, m + n)
    decreases n
  {
    if n > 0 {
      ToggledAdd(rate, m, n - 1);
    }
  }

  /** Starting from 1.0, the first three presses visit every rate of the cycle once. */
  lemma CycleVisitsAllRates()
    ensures Toggled(NormalRate, 1) == SlowRate
    ensures Toggled(NormalRate, 2) == SlowestRate
    ensures Toggled(NormalRate, 3) == NormalRate
  {
  }

  /** Marker of a host that was never configured. */
  const Placeholder: string := "your-bunny"

  /** The text-to-speech demo clip played instead (its query text is a fixed, already encoded constant). */
  const DemoUrl: string :=
    "https://translate.google.com/translate_tts?ie=UTF-8&q=%EC%98%A4%EB%94%94%EC%98%A4%20%ED%99%95%EC%9D%B8%EC%9A%A9&tl=ko&client=tw-ob"

  /** The target chosen by `playAudio`: the demo clip when the URL still holds the placeholder, else the URL itself. */
  function PlayTarget(url: string): (target: string)
    ensures (exists i: nat :: OccursAt(url, Placeholder, i)) ==> target == DemoUrl
    ensures (forall i: nat :: !OccursAt(url, Placeholder, i)) ==> target == url
  {
    if Includes(url, Placeholder) then DemoUrl else url
  }

  /** No character of "<base>/w_" is the placeholder's first letter 'y'. */
  lemma HeadHasNoY()
    ensures forall k :: 0 <= k < |CdnBaseUrl + "/w_"| ==> (CdnBaseUrl + "/w_")[k] != Placeholder[0]
  {
    assert CdnBaseUrl + "/w_" == "https://talkori.b-cdn.net/audio_tk/w_";
  }

  /**
   * A string made of a part without the placeholder's first letter, then a
   * part without the placeholder, then a part that starts with a character
   * of no occurrence and never has the first letter, does not contain the
   * placeholder.
   */
  lemma NoPlaceholderAcross(head: string, id: string, tail: string)
    requires forall k :: 0 <= k < |head| ==> head[k] != Placeholder[0]
    requires !Includes(id, Placeholder)
    requires tail != [] && forall k :: 0 <= k < |Placeholder| ==> Placeholder[k] != tail[0]
    requires forall k :: 0 <= k < |tail| ==> tail[k] != Placeholder[0]
    ensures !Includes(head + id + tail, Placeholder)
  {
    var url := head + id + tail;
    var n := |head| + |id|;
    assert forall k :: 0 <= k < |head| ==> url[k] == head[k];
    assert forall k :: n <= k < |url| ==> url[k] == tail[k - n];
    forall i: nat | OccursAt(url, Placeholder, i)
      ensures |head| <= i && OccursAt(id, Placeholder, i - |head|)
    {
      OccurrenceAfterPrefix(url, Placeholder, i, |head|);
      OccurrenceBeforeSuffix(url, Placeholder, i, n);
      OccurrenceAvoids(url, Placeholder, i, n);
      assert id[i - |head|..i - |head| + |Placeholder|] == url[i..i + |Placeholder|];
    }
  }

  /**
   * Clip URLs built for a word whose id does not contain the placeholder are
   * played as they are: neither the configured host, nor the "_ex_" and
   * ".mp3" parts around the id, can complete an occurrence of it.
   */
  lemma ConfiguredUrlsPlayAsBuilt(wordId: WordId, exIndex: Option<nat>)
    requires !Includes(FormatId(wordId), Placeholder)
    ensures PlayTarget(GetAudioUrl(wordId, exIndex)) == GetAudioUrl(wordId, exIndex)
  {
    HeadHasNoY();
    TailAvoidsPlaceholder(ClipTail(exIndex));
    UrlShape(wordId, exIndex);
    NoPlaceholderAcross(CdnBaseUrl + "/w_", FormatId(wordId), ClipTail(exIndex));
  }

  /** A clip URL tail starts with no character of the placeholder and never has its first letter. */
  lemma TailAvoidsPlaceholder(tail: string)
    requires tail != [] && tail[0] in ['.', '_']
    requires TailChars(tail)
    ensures forall k :: 0 <= k < |Placeholder| ==> Placeholder[k] != tail[0]
    ensures forall k :: 0 <= k < |tail| ==> tail[k] != Placeholder[0]
  {
    assert Placeholder == ['y', 'o', 'u', 'r', '-', 'b', 'u', 'n', 'n', 'y'];
  }
}
