/** The terminal arbiter: a stateless oracle that trades a free-text memory
    for one of four fixed hints. */
module Arbiter {
  import opened Text

  const OfferRealMemory: string := "You must offer a real memory"
  const CanalHint: string := "The canals hide more than water. Check th ledger for missing report."
  const DockHint: string := "The dock workers know about the blackwater. ask them again."
  const GenericHint: string := "Every memory is a clue. Look for what is missing"

  /** The four answers the arbiter can give. */
  const Hints: set<string> := {OfferRealMemory, CanalHint, DockHint, GenericHint}

  /** `TerminalArbiter.trade_memory_for_hint`: the first matching rule wins —
      a blank memory, then "canal", then "dock" (both ignoring case), then
      the generic hint. */
  function TradeMemoryForHint(memory: string): (hint: string)
    ensures hint in Hints
  {
    if Strip(memory) == [] then OfferRealMemory
    else if Contains(Lower(memory), "canal") then CanalHint
    else if Contains(Lower(memory), "dock") then DockHint
    else GenericHint
  }

  /** The memory names a canal, in any letter case. */
  predicate MentionsCanal(memory: string) {
    Contains(Lower(memory), "canal")
  }

  /** The memory names a dock, in any letter case. */
  predicate MentionsDock(memory: string) {
    Contains(Lower(memory), "dock")
  }

  /** The four hints are pairwise different, so each answer identifies the
      rule that produced it. */
  lemma HintsDistinct()
    ensures OfferRealMemory != CanalHint && OfferRealMemory != DockHint && OfferRealMemory != GenericHint
    ensures CanalHint != DockHint && CanalHint != GenericHint && DockHint != GenericHint
  {
  }

  /** The rules in terms of blankness and the two keyword tests. */
  lemma Rules(memory: string)
    ensures TradeMemoryForHint(memory) ==
      if IsBlank(memory) then OfferRealMemory
      else if MentionsCanal(memory) then CanalHint
      else if MentionsDock(memory) then DockHint
      else GenericHint
  {
    StripEmptyIffBlank(memory);
  }

  /** A blank memory, and only a blank one, is refused. */
  lemma BlankIsRefused(memory: string)
    ensures TradeMemoryForHint(memory) == OfferRealMemory <==> IsBlank(memory)
  {
    Rules(memory);
    HintsDistinct();
  }

  /** The canal hint is given exactly for non-blank memories that mention a
      canal, whether or not they also mention a dock. */
  lemma CanalRule(memory: string)
    ensures TradeMemoryForHint(memory) == CanalHint <==> !IsBlank(memory) && MentionsCanal(memory)
  {
    Rules(memory);
    HintsDistinct();
  }

  /** The dock hint is given exactly for non-blank memories that mention a
      dock but no canal. */
  lemma DockRule(memory: string)
    ensures TradeMemoryForHint(memory) == DockHint
        <==> !IsBlank(memory) && !MentionsCanal(memory) && MentionsDock(memory)
  {
    Rules(memory);
    HintsDistinct();
  }

  /** Every other non-blank memory gets the generic hint. */
  lemma GenericRule(memory: string)
    ensures TradeMemoryForHint(memory) == GenericHint
        <==> !IsBlank(memory) && !MentionsCanal(memory) && !MentionsDock(memory)
  {
    Rules(memory);
    HintsDistinct();
  }

  /** A memory that mentions both keywords gets the canal hint, not the dock
      hint. */
  lemma CanalBeatsDock(memory: string)
    requires !IsBlank(memory) && MentionsCanal(memory) && MentionsDock(memory)
    ensures TradeMemoryForHint(memory) == CanalHint
    ensures TradeMemoryForHint(memory) != DockHint
  {
    CanalRule(memory);
    HintsDistinct();
  }

  /** Two memories that agree on blankness and on both keywords get the
      same answer. */
  lemma SameAnswer(a: string, b: string)
    requires IsBlank(a) <==> IsBlank(b)
    requires MentionsCanal(a) <==> MentionsCanal(b)
    requires MentionsDock(a) <==> MentionsDock(b)
    ensures TradeMemoryForHint(a) == TradeMemoryForHint(b)
  {
    Rules(a);
    Rules(b);
  }

  /** Letter case never matters: the answer for a memory is the answer for
      its lower-case and for its upper-case form. */
  lemma {:induction false} IgnoresCase(memory: string)
    ensures TradeMemoryForHint(Lower(memory)) == TradeMemoryForHint(memory)
    ensures TradeMemoryForHint(Upper(memory)) == TradeMemoryForHint(memory)
  {
    LowerKeepsBlank(memory);
    LowerIdempotent(memory);
    SameAnswer(Lower(memory), memory);
    LowerKeepsBlank(Upper(memory));
    LowerOfUpper(memory);
    assert IsBlank(Upper(memory)) <==> IsBlank(memory) by {
      LowerKeepsBlank(Upper(memory));
      LowerKeepsBlank(memory);
    }
    SameAnswer(Upper(memory), memory);
  }

  /** Whitespace around a memory never changes the answer: the strip only
      decides blankness, and no keyword can straddle the padding. */
  lemma {:induction false} IgnoresSurroundingSpace(before: string, memory: string, after: string)
    requires IsBlank(before) && IsBlank(after)
    ensures TradeMemoryForHint(before + memory + after) == TradeMemoryForHint(memory)
  {
    var padded := before + memory + after;
    assert IsBlank(padded) <==> IsBlank(memory) by {
      assert forall k :: 0 <= k < |memory| ==> padded[|before| + k] == memory[k];
      assert forall k :: 0 <= k < |padded| ==>
        padded[k] == if k < |before| then before[k]
                     else if k < |before| + |memory| then memory[k - |before|]
                     else after[k - |before| - |memory|];
    }
    LowerConcat(before + memory, after);
    LowerConcat(before, memory);
    LowerKeepsBlank(before);
    LowerKeepsBlank(after);
    ContainsPadded(Lower(before), Lower(memory), Lower(after), "canal");
    ContainsPadded(Lower(before), Lower(memory), Lower(after), "dock");
    SameAnswer(padded, memory);
  }

  /** The recorded exchange: a memory of having seen the canal gets the
      canal hint, which points to the ledger. */
  lemma CanalMemoryPointsToLedger()
    ensures TradeMemoryForHint("I saw the canal") == CanalHint
  {
    var m := "I saw the canal";
    assert !IsSpace(m[0]);
    StripEmptyIffBlank(m);
    assert OccursAt(Lower(m), "canal", 10);
  }
}
