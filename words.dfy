/** The message text: the command-line words joined with single spaces (`' '.join`). */
module Words {

  /** ' '.join(words): the words in order, one space between neighbours. */
  function JoinWords(words: seq<string>): (r: string)
    ensures |words| > 0 ==> |words[0]| <= |r| && r[..|words[0]|] == words[0]
  {
    if |words| == 0 then ""
    else if |words| == 1 then words[0]
    else words[0] + " " + JoinWords(words[1..])
  }

  /** The total number of characters in the words. */
  function TotalLength(words: seq<string>): nat
  {
    if |words| == 0 then 0 else |words[0]| + TotalLength(words[1..])
  }

  /** The joined message holds every character of the words plus one separator per gap. */
  lemma {:induction false} JoinLength(words: seq<string>)
    requires |words| > 0
    ensures |JoinWords(words)| == TotalLength(words) + |words| - 1
  {
    if |words| > 1 {
      JoinLength(words[1..]);
    }
  }

  /**
   * The message is empty exactly when there are no words or a single empty
   * one: two empty words already join to " ".
   */
  lemma JoinEmptyIff(words: seq<string>)
    ensures JoinWords(words) == "" <==> |words| == 0 || (|words| == 1 && words[0] == "")
  {
    if |words| > 1 {
      assert JoinWords(words)[|words[0]|] == ' ';
    }
  }

  /** Appending a word adds one space and the word: the left-to-right reading of join. */
  lemma {:induction false} JoinSnoc(words: seq<string>, w: string)
    requires |words| > 0
    ensures JoinWords(words + [w]) == JoinWords(words) + " " + w
  {
    if |words| == 1 {
      assert words + [w] == [words[0], w];
    } else {
      assert (words + [w])[1..] == words[1..] + [w];
      JoinSnoc(words[1..], w);
    }
  }

  /** ["fix", "this", "bug"] is relayed as "fix this bug". */
  lemma JoinExample()
    ensures JoinWords(["fix", "this", "bug"]) == "fix this bug"
  {
  }
}
