/**
 * Extraction of the first fenced code block from an assistant reply
 * (`extract_code_blocks` in chatgpt/chatgpt.py).
 *
 * The program applies the regular expression  ```[^\n]*\n(.*?)```  with
 * DOTALL and keeps the first capture, or returns the reply unchanged when
 * there is none.  This module states what that pattern matches
 * (PatternMatch), which match the regex engine reports first (FirstMatch),
 * and proves a three-step scanner equal to it.
 */
module CodeBlocks {
  import opened Wrappers

  /** The fence "```" starts at position p of s. */
  predicate FenceAt(s: string, p: int)
  {
    0 <= p && p + 3 <= |s| && s[p] == '`' && s[p + 1] == '`' && s[p + 2] == '`'
  }

  /**
   * The pattern  ```[^\n]*\n(.*?)```  matches s from position i, its header
   * line ending with the newline at j - 1 and its group being s[j..k],
   * followed by the closing fence at k.  This admits every way the pattern
   * can match, not only the one the regex engine picks.
   */
  ghost predicate PatternMatch(s: string, i: int, j: int, k: int)
  {
    && FenceAt(s, i)
    && i + 3 < j <= k
    && FenceAt(s, k)
    && s[j - 1] == '\n'
    && (forall m :: i + 3 <= m < j - 1 ==> s[m] != '\n')
  }

  /**
   * The match re.findall reports first: it starts at the leftmost position
   * where the pattern matches at all; from there the greedy header and the
   * lazy group leave exactly one choice (the header ends at the first
   * newline, the group at the first fence after it).
   */
  ghost predicate FirstMatch(s: string, i: int, j: int, k: int)
  {
    && PatternMatch(s, i, j, k)
    && (forall i', j', k' :: i' < i ==> !PatternMatch(s, i', j', k'))
    && (forall j', k' :: PatternMatch(s, i, j', k') ==> j' == j && k <= k')
  }

  /** Bounds of the first block: opening fence, first and past-last index of its content. */
  datatype Block = Block(open: nat, start: nat, end: nat)

  /** The first fence at or after `from`. */
  function FindFence(s: string, from: nat): (r: Option<nat>)
    requires from <= |s|
    ensures r.Some? ==> from <= r.value && FenceAt(s, r.value)
    ensures r.Some? ==> forall m :: from <= m < r.value ==> !FenceAt(s, m)
    ensures r.None? ==> forall m :: from <= m ==> !FenceAt(s, m)
    decreases |s| - from
  {
    if from + 3 > |s| then None
    else if FenceAt(s, from) then Some(from)
    else FindFence(s, from + 1)
  }

  /** The first newline at or after `from`. */
  function FindNewline(s: string, from: nat): (r: Option<nat>)
    requires from <= |s|
    ensures r.Some? ==> from <= r.value < |s| && s[r.value] == '\n'
    ensures r.Some? ==> forall m :: from <= m < r.value ==> s[m] != '\n'
    ensures r.None? ==> forall m :: from <= m < |s| ==> s[m] != '\n'
    decreases |s| - from
  {
    if from == |s| then None
    else if s[from] == '\n' then Some(from)
    else FindNewline(s, from + 1)
  }

  /**
   * The scanner: the leftmost fence, the first newline after it, the first
   * fence after that newline.  It finds a block exactly when the pattern
   * matches somewhere, and then the block is the regex's first match.
   */
  function FirstBlock(s: string): (r: Option<Block>)
    ensures r.None? <==> forall i, j, k :: !PatternMatch(s, i, j, k)
    ensures r.Some? ==> FirstMatch(s, r.value.open, r.value.start, r.value.end)
  {
    match FindFence(s, 0)
    case None => NoMatchWithoutFence(s); None
    case Some(i) =>
      match FindNewline(s, i + 3)
      case None => NoMatchWithoutNewline(s, i); None
      case Some(n) =>
        match FindFence(s, n + 1)
        case None => NoMatchWithoutClose(s, i, n); None
        case Some(k) => ScannedBlockIsFirstMatch(s, i, n, k); Some(Block(i, n + 1, k))
  }

  lemma NoMatchWithoutFence(s: string)
    requires FindFence(s, 0).None?
    ensures forall i, j, k :: !PatternMatch(s, i, j, k)
  {
    forall i, j, k ensures !PatternMatch(s, i, j, k) {
      assert !FenceAt(s, i);
    }
  }

  lemma NoMatchWithoutNewline(s: string, i: nat)
    requires FindFence(s, 0) == Some(i)
    requires FindNewline(s, i + 3).None?
    ensures forall i', j, k :: !PatternMatch(s, i', j, k)
  {
    forall i', j, k ensures !PatternMatch(s, i', j, k) {
      if i' < i {
        assert !FenceAt(s, i');
      } else if i' + 3 < j <= |s| {
        assert s[j - 1] != '\n';
      }
    }
  }

  lemma NoMatchWithoutClose(s: string, i: nat, n: nat)
    requires FindFence(s, 0) == Some(i)
    requires FindNewline(s, i + 3) == Some(n)
    requires FindFence(s, n + 1).None?
    ensures forall i', j, k :: !PatternMatch(s, i', j, k)
  {
    forall i', j, k ensures !PatternMatch(s, i', j, k) {
      if i' < i {
        assert !FenceAt(s, i');
      } else if i' + 3 < j <= k && i + 3 <= j - 1 < n {
        // a header line of a match from i' would end before the first newline
        assert s[j - 1] != '\n';
      } else if n + 1 <= k {
        assert !FenceAt(s, k);
      }
    }
  }

  lemma ScannedBlockIsFirstMatch(s: string, i: nat, n: nat, k: nat)
    requires FindFence(s, 0) == Some(i)
    requires FindNewline(s, i + 3) == Some(n)
    requires FindFence(s, n + 1) == Some(k)
    ensures FirstMatch(s, i, n + 1, k)
  {
    assert PatternMatch(s, i, n + 1, k);
    forall i', j', k' | i' < i ensures !PatternMatch(s, i', j', k') {
      assert !FenceAt(s, i');
    }
    forall j', k' | PatternMatch(s, i, j', k') ensures j' == n + 1 && k <= k' {
      // both header ends are newlines, and neither header holds a newline
      assert s[j' - 1] == '\n' && s[n] == '\n';
      assert FenceAt(s, k');
    }
  }

  /**
   * extract_code_blocks: the content of the first fenced block, or the reply
   * unchanged when the pattern matches nowhere.  An empty block gives "",
   * not the reply.
   */
  function ExtractCodeBlocks(response: string): (r: string)
    ensures (forall i, j, k :: !PatternMatch(response, i, j, k)) ==> r == response
    ensures forall i, j, k :: FirstMatch(response, i, j, k) ==> r == response[j..k]
  {
    match FirstBlock(response)
    case None => response
    case Some(b) =>
      FirstMatchUnique(response, b.open, b.start, b.end);
      response[b.start..b.end]
  }

  /** The regex's first match is unique. */
  lemma FirstMatchUnique(s: string, i: int, j: int, k: int)
    requires FirstMatch(s, i, j, k)
    ensures forall i', j', k' :: FirstMatch(s, i', j', k') ==> i' == i && j' == j && k' == k
  {
    forall i', j', k' | FirstMatch(s, i', j', k') ensures i' == i && j' == j && k' == k {
      assert PatternMatch(s, i', j', k') && PatternMatch(s, i, j, k);
    }
  }

  /**
   * A match exists if and only if the leftmost fence is followed by a
   * newline that is itself followed by another fence.
   */
  lemma MatchIffLeftmostFenceCloses(s: string, f: nat)
    requires FenceAt(s, f) && forall m :: 0 <= m < f ==> !FenceAt(s, m)
    ensures (exists i, j, k :: PatternMatch(s, i, j, k))
        <==> (exists n, k :: f + 3 <= n < k && FenceAt(s, k) && s[n] == '\n')
  {
    var r := FindFence(s, 0);
    assert FenceAt(s, r.value);
    assert r == Some(f);
    if exists n, k :: f + 3 <= n < k && FenceAt(s, k) && s[n] == '\n' {
      var n, k :| f + 3 <= n < k && FenceAt(s, k) && s[n] == '\n';
      var n0 := FindNewline(s, f + 3);
      assert n0.Some?;
      assert n0.value <= n;
      var k0 := FindFence(s, n0.value + 1);
      assert k0.Some?;
      ScannedBlockIsFirstMatch(s, f, n0.value, k0.value);
    }
    if exists i, j, k :: PatternMatch(s, i, j, k) {
      var b := FirstBlock(s).value;
      assert PatternMatch(s, b.open, b.start, b.end);
      assert b.open == f;
      assert f + 3 <= b.start - 1 < b.end && FenceAt(s, b.end) && s[b.start - 1] == '\n';
    }
  }

  /** A successful extraction holds no fence. */
  lemma ExtractedBlockHasNoFence(s: string)
    requires FirstBlock(s).Some?
    ensures forall p :: !FenceAt(ExtractCodeBlocks(s), p)
  {
    var b := FirstBlock(s).value;
    var r := ExtractCodeBlocks(s);
    assert r == s[b.start..b.end];
    forall p ensures !FenceAt(r, p) {
      if 0 <= p && p + 3 <= |r| {
        // a fence inside the block would have closed the match earlier
        assert !PatternMatch(s, b.open, b.start, b.start + p);
        assert r[p] == s[b.start + p] && r[p + 1] == s[b.start + p + 1] && r[p + 2] == s[b.start + p + 2];
      }
    }
  }

  /** Applying extract_code_blocks twice equals applying it once. */
  lemma ExtractIdempotent(s: string)
    ensures ExtractCodeBlocks(ExtractCodeBlocks(s)) == ExtractCodeBlocks(s)
  {
    var r := ExtractCodeBlocks(s);
    if FirstBlock(s).Some? {
      ExtractedBlockHasNoFence(s);
      forall i, j, k ensures !PatternMatch(r, i, j, k) {
        assert !FenceAt(r, i);
      }
    }
  }

  /**
   * A reply made of backtick-free text, an opening fence with a one-line
   * tag, a backtick-free body and a closing fence: the body is extracted,
   * whatever follows.
   */
  lemma ExtractWellFormedBlock(pre: string, tag: string, body: string, post: string)
    requires '`' !in pre && '\n' !in tag && '`' !in body
    ensures ExtractCodeBlocks(pre + "```" + tag + "\n" + body + "```" + post) == body
  {
    var s := pre + "```" + tag + "\n" + body + "```" + post;
    var i, n := |pre|, |pre| + 3 + |tag|;
    var k := n + 1 + |body|;
    WellFormedLayout(pre, tag, body, post);
    ScanWellFormed(s, i, n, k);
  }

  /** Where each part of a well-formed reply sits, character by character. */
  lemma WellFormedLayout(pre: string, tag: string, body: string, post: string)
    requires '`' !in pre && '\n' !in tag && '`' !in body
    ensures var s, i, n := pre + "```" + tag + "\n" + body + "```" + post, |pre|, |pre| + 3 + |tag|;
      && (forall m :: 0 <= m < i ==> s[m] != '`')
      && FenceAt(s, i)
      && (forall m :: i + 3 <= m < n ==> s[m] != '\n')
      && n < |s| && s[n] == '\n'
      && (forall m :: n + 1 <= m < n + 1 + |body| ==> s[m] != '`')
      && FenceAt(s, n + 1 + |body|)
      && s[n + 1..n + 1 + |body|] == body
  {
    var s := pre + "```" + tag + "\n" + body + "```" + post;
    var i, n := |pre|, |pre| + 3 + |tag|;
    var k := n + 1 + |body|;
    forall m | 0 <= m < i ensures s[m] != '`' {
      assert s[m] == pre[m];
    }
    assert s[i] == '`' && s[i + 1] == '`' && s[i + 2] == '`';
    forall m | i + 3 <= m < n ensures s[m] != '\n' {
      assert s[m] == tag[m - i - 3];
    }
    assert s[n] == '\n';
    forall m | n + 1 <= m < k ensures s[m] != '`' {
      assert s[m] == body[m - n - 1];
    }
    assert s[k] == '`' && s[k + 1] == '`' && s[k + 2] == '`';
    assert s[n + 1..k] == body;
  }

  /** The scanner's three steps on a reply laid out as a well-formed block. */
  lemma ScanWellFormed(s: string, i: nat, n: nat, k: nat)
    requires FenceAt(s, i) && (forall m :: 0 <= m < i ==> s[m] != '`')
    requires i + 3 <= n < |s| && s[n] == '\n' && (forall m :: i + 3 <= m < n ==> s[m] != '\n')
    requires n + 1 <= k && FenceAt(s, k) && (forall m :: n + 1 <= m < k ==> s[m] != '`')
    ensures ExtractCodeBlocks(s) == s[n + 1..k]
  {
    FenceAfterPlainText(s, 0, i);
    FindNewlineSkips(s, i + 3, n);
    FenceAfterPlainText(s, n + 1, k);
    assert FirstBlock(s) == Some(Block(i, n + 1, k));
  }

  /** A fence preceded, from `from` on, by backtick-free text is the one found. */
  lemma FenceAfterPlainText(s: string, from: nat, at: nat)
    requires from <= at && FenceAt(s, at)
    requires forall m :: from <= m < at ==> s[m] != '`'
    ensures FindFence(s, from) == Some(at)
  {
    forall m | from <= m < at ensures !FenceAt(s, m) {
    }
    FindFenceSkips(s, from, at);
  }

  /** The reply "Here:\n```python\nprint(1)\n```\nDone." gives "print(1)\n". */
  lemma ExtractPythonExample(reply: string)
    requires reply == "Here:\n```python\nprint(1)\n```\nDone."
    ensures ExtractCodeBlocks(reply) == "print(1)\n"
  {
    assert reply == "Here:\n" + "```" + "python" + "\n" + "print(1)\n" + "```" + "\nDone.";
    ExtractWellFormedBlock("Here:\n", "python", "print(1)\n", "\nDone.");
  }

  lemma FindFenceSkips(s: string, from: nat, at: nat)
    requires from <= at && FenceAt(s, at)
    requires forall m :: from <= m < at ==> !FenceAt(s, m)
    ensures FindFence(s, from) == Some(at)
  {
  }

  lemma FindNewlineSkips(s: string, from: nat, at: nat)
    requires from <= at < |s| && s[at] == '\n'
    requires forall m :: from <= m < at ==> s[m] != '\n'
    ensures FindNewline(s, from) == Some(at)
  {
  }

  /** An empty block yields the empty string, not the reply. */
  lemma ExtractEmptyBlockExample()
    ensures ExtractCodeBlocks("```\n```") == ""
  {
    var s := "```\n```";
    assert FindFence(s, 0) == Some(0);
    assert FindNewline(s, 3) == Some(3);
    assert FindFence(s, 4) == Some(4);
  }

  /** An unterminated block: the reply comes back unchanged. */
  lemma ExtractUnclosedExample()
    ensures ExtractCodeBlocks("```py\nx = 1") == "```py\nx = 1"
  {
  }
}
