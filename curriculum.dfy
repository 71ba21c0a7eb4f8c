/**
 * The lesson data the session navigates: chapters ("days") holding words,
 * each word holding its example sentences, and the two lookups the
 * detail view performs on a chapter's word list: finding the active word
 * by id, and choosing the word to move to for "next" and "previous".
 */
module Curriculum {

  /**
   * The non-negative integers a JavaScript number holds exactly (below 2^53);
   * `String(...)` writes each of them in plain decimal.
   */
  type SafeInteger = n: nat | n < 0x20_0000_0000_0000

  /** A word id as `String(...)` receives it: the data uses text ids ("1-2"), numbers are accepted too. */
  datatype WordId = Text(text: string) | Number(n: SafeInteger)

  /** One example sentence ("pattern variation"): its label, the Korean sentence and its translation. */
  datatype Example = Example(kind: string, ko: string, en: string)

  datatype Word = Word(
    id: WordId,
    word: string,
    meaning: string,
    kind: string,
    usageNote: string,
    examples: seq<Example>)

  datatype Chapter = Chapter(chapterId: int, title: string, subtitle: string, words: seq<Word>)

  datatype Direction = Next | Prev

  /** What `navigateWord` decides: move to a position, finish the day, or do nothing. */
  datatype NavOutcome = MoveTo(index: nat) | DayCompleted | Stay

  /** No word before position `upTo` carries `id`. */
  predicate AbsentBefore(words: seq<Word>, id: WordId, upTo: nat)
    requires upTo <= |words|
  {
    forall j :: 0 <= j < upTo ==> words[j].id != id
  }

  /**
   * `words.findIndex(w => w.id === id)`: the first position whose word
   * has this id, or -1 when there is none.
   */
  function IndexOfId(words: seq<Word>, id: WordId): (k: int)
    ensures -1 <= k < |words|
    ensures k == -1 <==> AbsentBefore(words, id, |words|)
    ensures k >= 0 ==> words[k].id == id && AbsentBefore(words, id, k)
    decreases |words|
  {
    if words == [] then -1
    else if words[0].id == id then 0
    else
      var k := IndexOfId(words[1..], id);
      if k == -1 then -1 else k + 1
  }

  /** A word that belongs to the list is found: `findIndex` never gives -1 for it. */
  lemma {:induction false} MemberIsFound(words: seq<Word>, w: Word)
    requires w in words
    ensures 0 <= IndexOfId(words, w.id) < |words|
    ensures words[IndexOfId(words, w.id)].id == w.id
  {
    var j :| 0 <= j < |words| && words[j] == w;
    assert !AbsentBefore(words, w.id, |words|);
  }

  /** The linear scan of `findIndex`, proved to find exactly `IndexOfId`. */
  method FindWordIndex(words: seq<Word>, id: WordId) returns (k: int)
    ensures k == IndexOfId(words, id)
  {
    var i := 0;
    while i < |words|
      invariant 0 <= i <= |words|
      invariant AbsentBefore(words, id, i)
    {
      if words[i].id == id {
        return i;
      }
      i := i + 1;
    }
    return -1;
  }

  /**
   * The decision of `navigateWord`: step one position from the current
   * word's index; a position inside the list is moved to, stepping past
   * the end with "next" completes the day, and anything else stays put.
   */
  function Neighbour(words: seq<Word>, id: WordId, dir: Direction): (o: NavOutcome)
    ensures o.MoveTo? ==> o.index < |words|
  {
    var k := IndexOfId(words, id);
    var n := if dir == Next then k + 1 else k - 1;
    if 0 <= n < |words| then MoveTo(n)
    else if dir == Next then DayCompleted
    else Stay
  }

  /** Words are told apart by id: no two positions share one. */
  predicate DistinctIds(words: seq<Word>) {
    forall i, j :: 0 <= i < j < |words| ==> words[i].id != words[j].id
  }

  /** "next" from the word at position k (its id's first position) moves to k + 1 when there is one. */
  lemma NextMovesForward(words: seq<Word>, k: nat)
    requires k + 1 < |words|
    requires AbsentBefore(words, words[k].id, k)
    ensures Neighbour(words, words[k].id, Next) == MoveTo(k + 1)
  {
    assert IndexOfId(words, words[k].id) == k;
  }

  /** "next" from the last word completes the day. */
  lemma NextAtLastCompletes(words: seq<Word>)
    requires words != []
    requires AbsentBefore(words, words[|words| - 1].id, |words| - 1)
    ensures Neighbour(words, words[|words| - 1].id, Next) == DayCompleted
  {
    assert IndexOfId(words, words[|words| - 1].id) == |words| - 1;
  }

  /** "prev" from the first word changes nothing. */
  lemma PrevAtFirstStays(words: seq<Word>)
    requires words != []
    ensures Neighbour(words, words[0].id, Prev) == Stay
  {
    assert IndexOfId(words, words[0].id) == 0;
  }

  /** "prev" from the word at position k > 0 (its id's first position) moves to k - 1. */
  lemma PrevMovesBack(words: seq<Word>, k: nat)
    requires 0 < k < |words|
    requires AbsentBefore(words, words[k].id, k)
    ensures Neighbour(words, words[k].id, Prev) == MoveTo(k - 1)
  {
    assert IndexOfId(words, words[k].id) == k;
  }

  /** An id missing from the chapter counts as position -1: "next" goes to the first word, "prev" does nothing. */
  lemma MissingIdNavigation(words: seq<Word>, id: WordId)
    requires AbsentBefore(words, id, |words|)
    ensures Neighbour(words, id, Next) == if words == [] then DayCompleted else MoveTo(0)
    ensures Neighbour(words, id, Prev) == Stay
  {
    assert IndexOfId(words, id) == -1;
  }

  /** With distinct ids, "next" then "prev" comes back to the word one started from. */
  lemma NextThenPrev(words: seq<Word>, k: nat)
    requires DistinctIds(words)
    requires k + 1 < |words|
    ensures Neighbour(words, words[k].id, Next) == MoveTo(k + 1)
    ensures Neighbour(words, words[k + 1].id, Prev) == MoveTo(k)
  {
    NextMovesForward(words, k);
    PrevMovesBack(words, k + 1);
  }

  /** With distinct ids, "prev" then "next" comes back to the word one started from. */
  lemma PrevThenNext(words: seq<Word>, k: nat)
    requires DistinctIds(words)
    requires 0 < k < |words|
    ensures Neighbour(words, words[k].id, Prev) == MoveTo(k - 1)
    ensures Neighbour(words, words[k - 1].id, Next) == MoveTo(k)
  {
    PrevMovesBack(words, k);
    NextMovesForward(words, k - 1);
  }
}
