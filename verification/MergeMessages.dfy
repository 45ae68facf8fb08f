/** What a failed merge leaves on the attempt, and what is read back from it (src/cc_loop/failure.py). */
module MergeMessages {
  import opened TaskState

  /** Python's `in` on strings. */
  ghost predicate Has(text: string, word: string) {
    exists i: nat | i + |word| <= |text| :: HasAt(text, i, word)
  }

  predicate HasAt(text: string, i: nat, word: string) {
    i + |word| <= |text| && text[i..i + |word|] == word
  }

  function LowerChar(c: char): char {
    if 'A' <= c <= 'Z' then c - 'A' + 'a' else c
  }

  /** `str.lower`, on ASCII letters. */
  function Lower(text: string): (r: string)
    ensures |r| == |text| && forall i | 0 <= i < |text| :: r[i] == LowerChar(text[i])
  {
    seq(|text|, i requires 0 <= i < |text| => LowerChar(text[i]))
  }

  /**
   * `classify_merge_failure` on the text of an exception.  The pattern for conflict files asks for
   * the word CONFLICT itself, so the files it finds add nothing to the first test.
   */
  ghost function Kind(text: string): FailureType {
    var l := Lower(text);
    if Has(l, "conflict") then MergeConflict
    else if Has(l, "already checked out") then MergeWorktreeBusy
    else if Has(l, "not found") || Has(l, "unknown revision") then MergeBranchMissing
    else if Has(l, "permission") || Has(l, "denied") then MergePermission
    else MergeUnknown
  }

  /** A conflict outweighs everything else the text says, a busy worktree everything but that, and so on. */
  lemma KindExactlyWhen(text: string)
    ensures var l := Lower(text);
      && (Kind(text) == MergeConflict <==> Has(l, "conflict"))
      && (Kind(text) == MergeWorktreeBusy <==> Has(l, "already checked out") && !Has(l, "conflict"))
      && (Kind(text) == MergeBranchMissing <==>
            (Has(l, "not found") || Has(l, "unknown revision")) && !Has(l, "already checked out") && !Has(l, "conflict"))
      && (Kind(text) == MergePermission <==>
            (Has(l, "permission") || Has(l, "denied"))
            && !Has(l, "not found") && !Has(l, "unknown revision") && !Has(l, "already checked out") && !Has(l, "conflict"))
  {
  }

  // The stored messages, in pieces short enough to be searched; the `Text` lemmas spell them out.
  const CONFLICTS := "merge failed " + "due to " + "conflict" + "s"
  const BUSY := "base branch " + "is checked " + "out in " + "another " + "worktree"
  const MISSING := "merge failed " + "because a " + "branch or " + "revision " + "was " + "not found"
  const DENIED := "merge failed " + "due to " + "permission" + " or " + "access error"

  lemma ConflictText()
    ensures CONFLICTS == "merge failed due to conflicts"
  {
  }

  lemma BusyText()
    ensures BUSY == "base branch is checked out in another worktree"
  {
  }

  lemma MissingText()
    ensures MISSING == "merge failed because a " + "branch or revision was not found"
  {
    assert "merge failed because a " == "merge failed " + "because a ";
    assert "branch or revision was not found" == "branch or " + "revision " + "was " + "not found";
  }

  lemma DeniedText()
    ensures DENIED == "merge failed due to permission or access error"
  {
  }

  /** The message that is stored: a fixed one for each kind, the exception's own where there is none. */
  function Stored(kind: FailureType, message: string): string {
    match kind
    case MergeConflict => CONFLICTS
    case MergeWorktreeBusy => BUSY
    case MergeBranchMissing => MISSING
    case MergePermission => DENIED
    case _ => message
  }

  // ---------------------------------------------------------------- words in texts

  lemma HasNoWord(text: string, word: string, i: nat, c: char)
    requires i < |word| && word[i] == c
    requires c !in text
    ensures !Has(text, word)
  {
    forall k: nat | k + |word| <= |text| ensures !HasAt(text, k, word) {
      assert text[k..k + |word|][i] == text[k + i];
    }
  }

  lemma HasItself(word: string)
    ensures Has(word, word)
  {
    assert HasAt(word, 0, word);
  }

  /** A word in a part is in the whole. */
  lemma HasInPart(before: string, part: string, after: string, word: string)
    requires Has(part, word)
    ensures Has(before + part + after, word)
  {
    var i: nat :| i + |word| <= |part| && HasAt(part, i, word);
    var whole := before + part + after;
    assert whole[|before| + i..|before| + i + |word|] == part[i..i + |word|];
    assert HasAt(whole, |before| + i, word);
  }

  lemma LowerOfParts(a: string, b: string)
    ensures Lower(a + b) == Lower(a) + Lower(b)
  {
  }

  /** A message says no more than the text it is part of. */
  lemma PartHasNoMore(message: string, output: string, word: string)
    requires Has(Lower(message), word)
    ensures Has(Lower(message + output), word)
  {
    LowerOfParts(message, output);
    HasInPart("", Lower(message), Lower(output), word);
    assert "" + Lower(message) + Lower(output) == Lower(message) + Lower(output);
  }

  // ---------------------------------------------------------------- the stored messages

  lemma LowerIsItself(text: string)
    requires forall i | 0 <= i < |text| :: !('A' <= text[i] <= 'Z')
    ensures Lower(text) == text
  {
  }

  lemma ConflictReadsBack()
    ensures Kind(CONFLICTS) == MergeConflict
  {
    LowerIsItself(CONFLICTS);
    HasItself("conflict");
    HasInPart("merge failed " + "due to ", "conflict", "s", "conflict");
  }

  /** A character that stands once, in the wrong company. */
  lemma LoneChar(before: string, c: char, after: string, word: string, i: nat)
    requires c !in before && c !in after && i < |word| && word[i] == c
    requires || (i > 0 && (before == "" || before[|before| - 1] != word[i - 1]))
             || (i + 1 < |word| && (after == "" || after[0] != word[i + 1]))
    ensures !Has(before + [c] + after, word)
  {
    var text := before + [c] + after;
    forall k: nat | k + |word| <= |text| ensures !HasAt(text, k, word) {
      var part := text[k..k + |word|];
      assert part[i] == text[k + i];
      assert text[k + i] == c ==> k + i == |before|;
      assert i > 0 ==> part[i - 1] == text[k + i - 1];
      assert i + 1 < |word| ==> part[i + 1] == text[k + i + 1];
    }
  }

  lemma MissingReadsBack()
    ensures Kind(MISSING) == MergeBranchMissing
  {
    LowerIsItself(MISSING);
    HasNoWord(MISSING, "already checked out", 12, 'k');
    MissingIsNoConflict();
    MissingHasWord();
  }

  lemma MissingHasWord()
    ensures Has(MISSING, "not found")
  {
    var before := "merge failed " + "because a " + "branch or " + "revision " + "was ";
    HasItself("not found");
    HasInPart(before, "not found", "", "not found");
    assert before + "not found" + "" == MISSING;
  }

  lemma MissingIsNoConflict()
    ensures !Has(MISSING, "conflict")
  {
    var after := "ed " + "because a " + "branch or " + "revision " + "was " + "not found";
    LoneChar("merge fai", 'l', after, "conflict", 4);
    assert MISSING == "merge fai" + ['l'] + after;
  }

  lemma PermissionReadsBack()
    ensures Kind(DENIED) == MergePermission
  {
    LowerIsItself(DENIED);
    HasNoWord(DENIED, "already checked out", 12, 'k');
    HasNoWord(DENIED, "unknown revision", 2, 'k');
    DeniedIsNoConflict();
    DeniedIsNotMissing();
    DeniedHasWord();
  }

  lemma DeniedHasWord()
    ensures Has(DENIED, "permission")
  {
    var before, after := "merge failed " + "due to ", " or " + "access error";
    HasItself("permission");
    HasInPart(before, "permission", after, "permission");
    assert before + "permission" + after == DENIED;
  }

  lemma DeniedIsNoConflict()
    ensures !Has(DENIED, "conflict")
  {
    var after := "ed " + "due to " + "permission" + " or " + "access error";
    LoneChar("merge fai", 'l', after, "conflict", 4);
    assert DENIED == "merge fai" + ['l'] + after;
  }

  lemma DeniedIsNotMissing()
    ensures !Has(DENIED, "not found")
  {
    var after := "ailed " + "due to " + "permission" + " or " + "access error";
    LoneChar("merge ", 'f', after, "not found", 4);
    assert DENIED == "merge " + ['f'] + after;
  }

  /** The message for a busy worktree has lost the words that made it one. */
  lemma BusyReadsBackUnknown()
    ensures Kind(BUSY) == MergeUnknown
  {
    LowerIsItself(BUSY);
    BusyIsNeither();
    BusyIsNotMissing();
    BusyIsNoPermission();
    BusyIsNotDenied();
  }

  lemma BusyIsNeither()
    ensures !Has(BUSY, "conflict") && !Has(BUSY, "already checked out")
  {
    HasNoWord(BUSY, "conflict", 3, 'f');
    HasNoWord(BUSY, "already checked out", 1, 'l');
  }

  lemma BusyIsNotMissing()
    ensures !Has(BUSY, "not found") && !Has(BUSY, "unknown revision")
  {
    HasNoWord(BUSY, "not found", 4, 'f');
    HasNoWord(BUSY, "unknown revision", 10, 'v');
  }

  lemma BusyIsNoPermission()
    ensures !Has(BUSY, "permission")
  {
    HasNoWord(BUSY, "permission", 0, 'p');
  }

  lemma BusyIsNotDenied()
    ensures !Has(BUSY, "denied")
  {
    var before, after := "base branch " + "is checke", " out in " + "another " + "worktree";
    LoneChar(before, 'd', after, "denied", 0);
    assert BUSY == before + ['d'] + after;
  }

  /** A text without any of the words has no part with one of them. */
  lemma UnknownReadsBack(message: string, output: string)
    requires Kind(message + output) == MergeUnknown
    ensures Kind(message) == MergeUnknown
  {
    forall word | Has(Lower(message), word) ensures Has(Lower(message + output), word) {
      PartHasNoMore(message, output, word);
    }
  }

  /**
   * Whatever git said, the kind read back from the stored message is the kind the failure was
   * given, but for a busy worktree, which comes back as an unknown failure.  `output` is what a
   * failed command printed; another error has none.
   */
  lemma ReadBackForgetsBusy(message: string, output: string)
    ensures var kind := Kind(message + output);
      Kind(Stored(kind, message)) == (if kind == MergeWorktreeBusy then MergeUnknown else kind)
      && StoredMergeReport(kind).kind == Kind(Stored(kind, message))
  {
    ConflictReadsBack();
    MissingReadsBack();
    PermissionReadsBack();
    BusyReadsBackUnknown();
    if Kind(message + output) == MergeUnknown { UnknownReadsBack(message, output); }
  }
}
