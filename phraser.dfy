/** The phraser: cycles through phrase templates, always starting with the
    first one, which is then dropped for good; every later cycle is a fresh
    random order of the rest. Formatting a template with its arguments is not
    modelled: `Get` returns the chosen template. */
module Phraser {

  class Phraser {
    var phrases: seq<string>
    var lastPhraseIdx: int
    var hasShuffledBefore: bool
    /** The phrases the phraser was made with. */
    ghost var original: seq<string>

    /** The index stays in range; before the first reshuffle the phrases are the
        original ones in their order, afterwards they are some order of the
        original phrases without the first. */
    ghost predicate Valid()
      reads this
    {
      && -1 <= lastPhraseIdx < |phrases|
      && (!hasShuffledBefore ==> phrases == original)
      && (hasShuffledBefore ==> |original| >= 2 && lastPhraseIdx >= 0 && multiset(phrases) == multiset(original[1..]))
    }

    /** `New`: nothing shown yet. */
    constructor New(phrases: seq<string>)
      ensures Valid()
      ensures this.phrases == phrases && original == phrases
      ensures lastPhraseIdx == -1 && !hasShuffledBefore
    {
      this.phrases := phrases;
      lastPhraseIdx := -1;
      hasShuffledBefore := false;
      original := phrases;
    }

    /** `shuffle`: with two or more phrases, replaces them by a random
        permutation of a copy (any order may come out); otherwise does nothing. */
    method Shuffle()
      modifies this`phrases
      ensures multiset(phrases) == multiset(old(phrases)) && |phrases| == |old(phrases)|
      ensures |old(phrases)| < 2 ==> phrases == old(phrases)
    {
      if |phrases| < 2 {
        return;
      }
      var shuffledPhrases := new string[|phrases|];
      forall i | 0 <= i < shuffledPhrases.Length {
        shuffledPhrases[i] := phrases[i];
      }
      assert shuffledPhrases[..] == phrases;
      // Fisher-Yates, as `rand.Shuffle` does it; the random index is any index
      // not above the current one.
      var i := shuffledPhrases.Length - 1;
      while i > 0
        invariant 0 <= i < shuffledPhrases.Length
        invariant phrases == old(phrases)
        invariant multiset(shuffledPhrases[..]) == multiset(phrases)
      {
        var j :| 0 <= j <= i;
        shuffledPhrases[i], shuffledPhrases[j] := shuffledPhrases[j], shuffledPhrases[i];
        i := i - 1;
      }
      phrases := shuffledPhrases[..];
    }

    /** `Get`: the next template. No phrases gives "", one phrase always that
        phrase; otherwise the next phrase in order, and at the end of a cycle
        (the first phrase dropped if this is the first end) a reshuffle and the
        first phrase of the new order. */
    method Get() returns (template: string)
      requires Valid()
      modifies this
      ensures Valid() && original == old(original)
      ensures old(|phrases|) == 0 ==> template == "" && unchanged(this)
      ensures old(|phrases|) == 1 ==> template == old(phrases[0]) && unchanged(this)
      ensures old(|phrases|) >= 2 && old(lastPhraseIdx) + 1 < old(|phrases|) ==>
                && phrases == old(phrases) && hasShuffledBefore == old(hasShuffledBefore)
                && lastPhraseIdx == old(lastPhraseIdx) + 1
                && template == phrases[lastPhraseIdx]
      ensures old(|phrases|) >= 2 && old(lastPhraseIdx) + 1 >= old(|phrases|) ==>
                && hasShuffledBefore && lastPhraseIdx == 0
                && multiset(phrases) == multiset(if old(hasShuffledBefore) then old(phrases) else old(phrases[1..]))
                && template == phrases[0]
      ensures |original| > 0 ==> template in original
      ensures hasShuffledBefore ==> template in original[1..]
    {
      if |phrases| == 0 {
        return "";
      }
      if |phrases| == 1 {
        template := phrases[0];
        assert template in multiset(phrases);
        if hasShuffledBefore {
          InTail(original, template);
        }
        return;
      }
      lastPhraseIdx := lastPhraseIdx + 1;
      if lastPhraseIdx >= |phrases| {
        if !hasShuffledBefore {
          // the first phrase is shown once only
          phrases := phrases[1..];
          hasShuffledBefore := true;
        }
        Shuffle();
        lastPhraseIdx := 0;
      }
      template := phrases[lastPhraseIdx];
      assert template in multiset(phrases);
      if hasShuffledBefore {
        InTail(original, template);
      }
    }

    /** What is in a list without its head is in the list. */
    static lemma InTail(s: seq<string>, x: string)
      requires |s| > 0 && x in s[1..]
      ensures x in s
    {
      assert s == [s[0]] + s[1..];
    }
  }

  /** The first cycle of a new phraser shows every phrase once, in the given
      order. */
  method FirstCycle(p: Phraser) returns (shown: seq<string>)
    requires p.Valid() && p.lastPhraseIdx == -1 && !p.hasShuffledBefore && |p.phrases| >= 2
    modifies p
    ensures shown == old(p.phrases)
    ensures p.Valid() && !p.hasShuffledBefore && p.lastPhraseIdx == |p.phrases| - 1
  {
    shown := [];
    while |shown| < |p.phrases|
      invariant p.Valid() && !p.hasShuffledBefore && p.phrases == old(p.phrases)
      invariant p.lastPhraseIdx == |shown| - 1
      invariant shown == p.phrases[..|shown|]
      decreases |p.phrases| - |shown|
    {
      var template := p.Get();
      shown := shown + [template];
    }
  }

  /** Every phrase shown after the first cycle is one of the original phrases
      other than the first, so the first phrase is shown once (when it occurs
      only once in the list). */
  method LaterCycles(p: Phraser, n: nat) returns (shown: seq<string>)
    requires p.Valid() && !p.hasShuffledBefore && |p.phrases| >= 2 && p.lastPhraseIdx == |p.phrases| - 1
    modifies p
    ensures |shown| == n && |p.original| >= 2
    ensures forall i | 0 <= i < n :: shown[i] in p.original[1..]
  {
    shown := [];
    while |shown| < n
      invariant p.Valid() && p.original == old(p.original) && |p.original| >= 2
      invariant |shown| > 0 ==> p.hasShuffledBefore
      invariant |shown| == 0 ==> !p.hasShuffledBefore && |p.phrases| >= 2 && p.lastPhraseIdx == |p.phrases| - 1
      invariant |shown| <= n
      invariant forall i | 0 <= i < |shown| :: shown[i] in p.original[1..]
    {
      var template := p.Get();
      shown := shown + [template];
    }
  }
}
