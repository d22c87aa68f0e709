/**
 The local story's two sides: what a slot shows, and what submitting a shown text
 resolves to. They agree slot by slot unless the author put the breakthrough at C.
 */
module LocalStory {
  import opened GameConstants
  import opened GameSession
  import opened Realm

  /** An authored option, or one of the two the engine substitutes. */
  datatype StoryOption = StoryOption(text: string, next: string, breakthrough: bool, gain: string)

  datatype Node = Node(key: string, options: seq<StoryOption>)

  /** The fixed texts: the formal attempt, the safe action of a slot, the healing action. */
  datatype Texts = Texts(challenge: string, safe: nat -> string, healing: seq<Effect> -> string)

  const CHALLENGE_SLOT := 2

  predicate HasBreakthrough(options: seq<StoryOption>) {
    exists i :: 0 <= i < |options| && options[i].breakthrough
  }

  /** The first authored breakthrough, offered formally at C. */
  function Required(t: Texts, options: seq<StoryOption>): (o: StoryOption)
    requires HasBreakthrough(options)
    ensures o.breakthrough && o.text == t.challenge
    decreases |options|
  {
    if options[0].breakthrough then options[0].(text := t.challenge)
    else
      assert HasBreakthrough(options[1..]) by {
        var i :| 0 <= i < |options| && options[i].breakthrough;
        assert options[1..][i - 1].breakthrough;
      }
      Required(t, options[1..])
  }

  /** A safe action in place of a breakthrough that may not be offered; it stays on its node. */
  function Safe(t: Texts, node: Node, effects: seq<Effect>, slot: nat): (o: StoryOption)
    ensures !o.breakthrough && o.next == node.key
  {
    var wounds := Blockers(effects);
    StoryOption(if slot == 0 && wounds != [] then t.healing(wounds) else t.safe(slot), node.key, false, "safe")
  }

  // ---- Display -------------------------------------------------------------

  function Visible(t: Texts, node: Node, effects: seq<Effect>, allowed: bool, slot: nat): StoryOption
    requires slot < |node.options|
  {
    var option := node.options[slot];
    if allowed && slot == CHALLENGE_SLOT && !option.breakthrough && HasBreakthrough(node.options) then
      Required(t, node.options)
    else if !option.breakthrough then option
    else Safe(t, node, effects, slot)
  }

  function ShownTexts(t: Texts, node: Node, effects: seq<Effect>, allowed: bool): (r: seq<string>)
    ensures |r| == |node.options|
  {
    seq(|node.options|, i requires 0 <= i < |node.options| => Visible(t, node, effects, allowed, i).text)
  }

  // ---- Resolution ----------------------------------------------------------

  /** A shown text that differs from the authored one stands for a substitute. */
  function Displayed(t: Texts, node: Node, effects: seq<Effect>, slot: nat, shown: string): StoryOption
    requires slot < |node.options|
  {
    var option := node.options[slot];
    if shown == option.text then option
    else if slot == CHALLENGE_SLOT && HasBreakthrough(node.options) then Required(t, node.options)
    else if option.breakthrough then Safe(t, node, effects, slot)
    else option
  }

  /** The first position of a text. */
  function IndexOf(texts: seq<string>, text: string): (i: nat)
    ensures i <= |texts|
    ensures i < |texts| ==> texts[i] == text
    ensures forall j :: 0 <= j < i ==> texts[j] != text
    decreases |texts|
  {
    if texts == [] || texts[0] == text then 0 else 1 + IndexOf(texts[1..], text)
  }

  /** The loop over the texts on show, then over the authored texts. */
  method MatchOption(t: Texts, node: Node, effects: seq<Effect>, shown: seq<string>, submitted: string)
    returns (found: Option<StoryOption>)
    ensures found == Resolved(t, node, effects, shown, submitted)
  {
    if |shown| == |node.options| {
      var i := FirstIndex(shown, submitted);
      if i < |shown| {
        return Some(Displayed(t, node, effects, i, shown[i]));
      }
    }
    var authored := seq(|node.options|, i requires 0 <= i < |node.options| => node.options[i].text);
    var i := FirstIndex(authored, submitted);
    found := if i < |authored| then Some(node.options[i]) else None;
  }

  method FirstIndex(texts: seq<string>, text: string) returns (i: nat)
    ensures i == IndexOf(texts, text)
  {
    i := 0;
    while i < |texts| && texts[i] != text
      invariant i <= |texts|
      invariant IndexOf(texts, text) == i + IndexOf(texts[i..], text)
    {
      assert texts[i..][1..] == texts[i + 1..];
      i := i + 1;
    }
  }

  function Resolved(t: Texts, node: Node, effects: seq<Effect>, shown: seq<string>, submitted: string)
    : Option<StoryOption>
  {
    var i := IndexOf(shown, submitted);
    if |shown| == |node.options| && i < |shown| then Some(Displayed(t, node, effects, i, shown[i]))
    else
      var authored := seq(|node.options|, k requires 0 <= k < |node.options| => node.options[k].text);
      var j := IndexOf(authored, submitted);
      if j < |authored| then Some(node.options[j]) else None
  }

  // ---- Agreement -----------------------------------------------------------

  /** Every label on show is its own, and no substitute borrows the text it replaces. */
  ghost predicate DistinctLabels(t: Texts, node: Node, effects: seq<Effect>, allowed: bool) {
    var shown := ShownTexts(t, node, effects, allowed);
    && (forall i, j :: 0 <= i < j < |shown| ==> shown[i] != shown[j])
    && (forall i :: 0 <= i < |node.options| && Visible(t, node, effects, allowed, i) != node.options[i] ==>
          shown[i] != node.options[i].text)
  }

  /**
   Submitting the text shown at a slot selects exactly the option shown there, at
   every slot, if and only if C is not itself an authored breakthrough.
   */
  lemma ShownIsResolvedIff(t: Texts, node: Node, effects: seq<Effect>, allowed: bool)
    requires DistinctLabels(t, node, effects, allowed)
    ensures
      var shown := ShownTexts(t, node, effects, allowed);
      (forall i :: 0 <= i < |node.options| ==>
         Resolved(t, node, effects, shown, shown[i]) == Some(Visible(t, node, effects, allowed, i)))
      <==> !(CHALLENGE_SLOT < |node.options| && node.options[CHALLENGE_SLOT].breakthrough)
  {
  }

  /** There the safe text is shown but the breakthrough is resolved, whether or not it is allowed. */
  lemma AuthoredBreakthroughAtC(t: Texts, node: Node, effects: seq<Effect>, allowed: bool)
    requires DistinctLabels(t, node, effects, allowed)
    requires CHALLENGE_SLOT < |node.options| && node.options[CHALLENGE_SLOT].breakthrough
    ensures
      var shown := ShownTexts(t, node, effects, allowed);
      && !Visible(t, node, effects, allowed, CHALLENGE_SLOT).breakthrough
      && Displayed(t, node, effects, CHALLENGE_SLOT, shown[CHALLENGE_SLOT]).breakthrough
  {
  }

  /** A breakthrough is on show only at C, exactly when allowed and authored somewhere else. */
  lemma BreakthroughShownOnlyAtC(t: Texts, node: Node, effects: seq<Effect>, allowed: bool, slot: nat)
    requires slot < |node.options|
    ensures Visible(t, node, effects, allowed, slot).breakthrough <==>
      slot == CHALLENGE_SLOT && allowed && !node.options[slot].breakthrough && HasBreakthrough(node.options)
  {
  }

  /** The formal attempt is the first authored breakthrough, under the formal text alone. */
  lemma {:induction false} FormalAttemptIsFirstAuthored(t: Texts, options: seq<StoryOption>, k: nat)
    requires k < |options| && options[k].breakthrough && forall j :: 0 <= j < k ==> !options[j].breakthrough
    ensures HasBreakthrough(options) && Required(t, options) == options[k].(text := t.challenge)
    decreases |options|
  {
    if k > 0 {
      FormalAttemptIsFirstAuthored(t, options[1..], k - 1);
    }
  }

  /**
   A breakthrough that may not be offered at its slot is replaced by a safe action that
   stays on the node: at A it names the wounds to heal, if there are any.
   */
  lemma BlockedBreakthroughIsSafe(t: Texts, node: Node, effects: seq<Effect>, allowed: bool, slot: nat)
    requires slot < |node.options| && node.options[slot].breakthrough
    ensures
      var shown := Visible(t, node, effects, allowed, slot);
      var wounds := Blockers(effects);
      && !shown.breakthrough && shown.next == node.key
      && shown.text == if slot == 0 && wounds != [] then t.healing(wounds) else t.safe(slot)
  {
  }
}
