/**
 * The naming convention for audio clips on the media host (`getAudioUrl`):
 *   word clip:     <base>/w_<id>.mp3
 *   example clip:  <base>/w_<id>_ex_<NN>.mp3
 * where <base> is the CDN pull-zone host followed by "/audio_tk", <id> is
 * `String(wordId)` (not trimmed), and <NN> is the one-based example number
 * in decimal, padded on the left with '0' to at least two digits.
 */
module AudioUrl {
  import opened Wrappers
  import opened Strings
  import opened Curriculum

  const BunnyCdnHost: string := "https://talkori.b-cdn.net"
  const CdnBaseUrl: string := BunnyCdnHost + "/audio_tk"
  const Extension: string := ".mp3"

  /** `String(wordId)`. */
  function FormatId(id: WordId): string {
    match id
    case Text(t) => t
    case Number(n) => NatToString(n)
  }

  /** Everything before the clip-specific part: "<base>/w_<id>". */
  function ClipStem(id: WordId): string {
    CdnBaseUrl + "/w_" + FormatId(id)
  }

  /** `String(exIndex + 1).padStart(2, '0')`: the one-based example number of a clip. */
  function ExampleNumber(exIndex: nat): string {
    PadStart(NatToString(exIndex + 1), 2, '0')
  }

  /**
   * The example number is all digits, at least two of them (exactly two for
   * the first 99 examples), reads back as the one-based number, and keeps the
   * plain decimal form intact at its end.
   */
  lemma ExampleNumberSpec(exIndex: nat)
    ensures var s := ExampleNumber(exIndex);
      && 2 <= |s|
      && AllDigits(s)
      && ParseDecimal(s) == exIndex + 1
      && (|s| == 2 <==> exIndex < 99)
      && |NatToString(exIndex + 1)| <= |s|
      && s[|s| - |NatToString(exIndex + 1)|..] == NatToString(exIndex + 1)
  {
    var digits := NatToString(exIndex + 1);
    var zeros := Repeat('0', if |digits| >= 2 then 0 else 2 - |digits|);
    assert ExampleNumber(exIndex) == zeros + digits;
    ParseNatToString(exIndex + 1);
    ParseIgnoresLeadingZeros(zeros, digits);
    NatToStringShort(exIndex + 1);
  }

  /** `getAudioUrl(wordId, exIndex)`: `None` stands for the default `null` (the word clip). */
  function GetAudioUrl(wordId: WordId, exIndex: Option<nat>): (url: string)
    ensures |ClipStem(wordId)| + |Extension| <= |url|
    ensures url[..|ClipStem(wordId)|] == ClipStem(wordId)
    ensures url[|url| - |Extension|..] == Extension
  {
    match exIndex
    case None => ClipStem(wordId) + Extension
    case Some(i) => ClipStem(wordId) + "_ex_" + ExampleNumber(i) + Extension
  }

  /**
   * Reads the example index back out of a clip URL for a given word, or
   * `None` when the URL is not an example clip of that word.
   */
  function ParseExampleUrl(wordId: WordId, url: string): Option<nat> {
    var p := ClipStem(wordId) + "_ex_";
    if |url| < |p| + 2 + |Extension| || url[..|p|] != p || url[|url| - |Extension|..] != Extension then None
    else
      var digits := url[|p|..|url| - |Extension|];
      if !AllDigits(digits) || ParseDecimal(digits) == 0 then None
      else Some(ParseDecimal(digits) - 1)
  }

  /** An example clip's URL names its example: reading it back gives the index it was built from. */
  lemma ExampleUrlRoundTrip(wordId: WordId, exIndex: nat)
    ensures ParseExampleUrl(wordId, GetAudioUrl(wordId, Some(exIndex))) == Some(exIndex)
  {
    var p := ClipStem(wordId) + "_ex_";
    var number := ExampleNumber(exIndex);
    ExampleNumberSpec(exIndex);
    var url := GetAudioUrl(wordId, Some(exIndex));
    assert url == p + number + Extension;
    SplitThree(p, number, Extension);
    assert |url| - |Extension| == |p| + |number|;
  }

  /** The word clip's URL is never read as an example clip of the same word. */
  lemma WordUrlIsNoExampleUrl(wordId: WordId)
    ensures ParseExampleUrl(wordId, GetAudioUrl(wordId, None)) == None
  {
  }

  /** Different example indices of one word give different URLs, and none equals the word clip's. */
  lemma ClipUrlsDistinct(wordId: WordId, i: nat, j: nat)
    ensures GetAudioUrl(wordId, Some(i)) == GetAudioUrl(wordId, Some(j)) <==> i == j
    ensures GetAudioUrl(wordId, Some(i)) != GetAudioUrl(wordId, None)
  {
    ExampleUrlRoundTrip(wordId, i);
    ExampleUrlRoundTrip(wordId, j);
    WordUrlIsNoExampleUrl(wordId);
  }

  /** The characters a clip URL can have after the id: those of "_ex_", of ".mp3", and digits. */
  predicate TailChar(c: char) {
    c == '_' || c == 'e' || c == 'x' || c == '.' || c == 'm' || c == 'p' || IsDigit(c)
  }

  predicate TailChars(s: string) {
    forall k :: 0 <= k < |s| ==> TailChar(s[k])
  }

  lemma TailCharsConcat(a: string, b: string)
    requires TailChars(a) && TailChars(b)
    ensures TailChars(a + b)
  {
  }

  /** What follows the id in a clip URL. */
  function ClipTail(exIndex: Option<nat>): (tail: string)
    ensures tail != [] && tail[0] in ['.', '_']
    ensures TailChars(tail)
  {
    assert TailChars(Extension) by { assert Extension == ['.', 'm', 'p', '3']; }
    match exIndex
    case None => Extension
    case Some(i) =>
      assert TailChars("_ex_") by { assert "_ex_" == ['_', 'e', 'x', '_']; }
      ExampleNumberSpec(i);
      TailCharsConcat("_ex_", ExampleNumber(i));
      TailCharsConcat("_ex_" + ExampleNumber(i), Extension);
      "_ex_" + ExampleNumber(i) + Extension
  }

  /** A clip URL is "<base>/w_<id>" followed by the clip-specific tail. */
  lemma UrlShape(wordId: WordId, exIndex: Option<nat>)
    ensures GetAudioUrl(wordId, exIndex) == ClipStem(wordId) + ClipTail(exIndex)
  {
    match exIndex
    case None =>
    case Some(i) =>
      var number := ExampleNumber(i);
      ConcatAssoc(ClipStem(wordId) + "_ex_", number, Extension);
      ConcatAssoc(ClipStem(wordId), "_ex_", number + Extension);
      ConcatAssoc("_ex_", number, Extension);
  }

  /** The example number is one-based and zero-padded: index 0 is "01", index 9 is "10", index 99 is "100". */
  lemma ExampleNumberSamples()
    ensures ExampleNumber(0) == "01"
    ensures ExampleNumber(9) == "10"
    ensures ExampleNumber(99) == "100"
  {
    assert NatToString(1) == "1";
    assert NatToString(10) == "10";
    assert NatToString(100) == "100" by { assert NatToString(10) == "10"; }
  }

  /** The base of every clip URL: the configured pull-zone host, then "/audio_tk". */
  lemma BaseUrlValue()
    ensures CdnBaseUrl == "https://talkori.b-cdn.net/audio_tk"
  {
  }

  /** The example clip of word "7" whose number is `number`. */
  lemma ExampleUrlOfSeven(i: nat, number: string)
    requires ExampleNumber(i) == number
    ensures GetAudioUrl(Text("7"), Some(i)) == CdnBaseUrl + "/w_7_ex_" + number + Extension
  {
    var stem := ClipStem(Text("7"));
    assert GetAudioUrl(Text("7"), Some(i)) == stem + "_ex_" + number + Extension;
    ConcatAssoc(CdnBaseUrl, "/w_", "7");
    ConcatAssoc(CdnBaseUrl, "/w_7", "_ex_");
    assert stem + "_ex_" == CdnBaseUrl + "/w_7_ex_";
  }

  /** The word clip of word "7" is `<base>/w_7.mp3`. */
  lemma WordUrlSample()
    ensures GetAudioUrl(Text("7"), None) == CdnBaseUrl + "/w_7.mp3"
  {
    ConcatAssoc(CdnBaseUrl, "/w_", "7");
    ConcatAssoc(CdnBaseUrl, "/w_7", Extension);
  }

  /** The first example clip of word "7" is `<base>/w_7_ex_01.mp3`. */
  lemma FirstExampleUrlSample()
    ensures GetAudioUrl(Text("7"), Some(0)) == CdnBaseUrl + "/w_7_ex_01.mp3"
  {
    assert ExampleNumber(0) == "01" by { ExampleNumberSamples(); }
    ExampleUrlOfSeven(0, "01");
    ConcatAssoc(CdnBaseUrl + "/w_7_ex_", "01", Extension);
    ConcatAssoc(CdnBaseUrl, "/w_7_ex_", "01" + Extension);
  }

  /** The tenth example clip of word "7" is `<base>/w_7_ex_10.mp3`. */
  lemma TenthExampleUrlSample()
    ensures GetAudioUrl(Text("7"), Some(9)) == CdnBaseUrl + "/w_7_ex_10.mp3"
  {
    assert ExampleNumber(9) == "10" by { ExampleNumberSamples(); }
    ExampleUrlOfSeven(9, "10");
    ConcatAssoc(CdnBaseUrl + "/w_7_ex_", "10", Extension);
    ConcatAssoc(CdnBaseUrl, "/w_7_ex_", "10" + Extension);
  }

  /** `String(7)` and `String("7")` agree: an exactly held numeric id names the same clips as its decimal text. */
  lemma NumericIdMatchesText(n: SafeInteger, exIndex: Option<nat>)
    ensures GetAudioUrl(Number(n), exIndex) == GetAudioUrl(Text(NatToString(n)), exIndex)
  {
  }

  /** The id is used as given: surrounding spaces are kept, so " 7 " and "7" name different clips. */
  lemma IdIsNotTrimmed()
    ensures GetAudioUrl(Text(" 7 "), None) != GetAudioUrl(Text("7"), None)
  {
    var a := GetAudioUrl(Text(" 7 "), None);
    var b := GetAudioUrl(Text("7"), None);
    assert |a| != |b|;
  }
}
