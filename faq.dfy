/** The FAQ accordion: one state cell names the open question, if any. */
module Faq {
  import opened Common

  /** The `${categoryIndex}-${questionIndex}` key of a question. */
  function Key(category: nat, question: nat): string {
    NatToString(category) + "-" + NatToString(question)
  }

  /** In a key the first dash follows the category's digits. */
  lemma DashPosition(x: string, y: string, k: string)
    requires AllDigits(x) && k == x + "-" + y
    ensures |x| < |k| && k[|x|] == '-'
    ensures forall i :: 0 <= i < |x| ==> k[i] != '-'
  {
  }

  /** Different questions have different keys. */
  lemma KeyInjective(c: nat, q: nat, c': nat, q': nat)
    requires Key(c, q) == Key(c', q')
    ensures c == c' && q == q'
  {
    var x, y, x', y' := NatToString(c), NatToString(q), NatToString(c'), NatToString(q');
    var k := Key(c, q);
    DashPosition(x, y, k);
    DashPosition(x', y', k);
    assert |x| == |x'|;
    assert x == k[..|x|] == x';
    assert y == k[|x| + 1..] == y';
    NatToStringInjective(c, c');
    NatToStringInjective(q, q');
  }

  /** `openIndex === index ? null : index` */
  function Toggled(open: Option<string>, key: string): (r: Option<string>)
    ensures r == Some(key) <==> open != Some(key)
    ensures r.None? <==> open == Some(key)
  {
    if open == Some(key) then None else Some(key)
  }

  predicate IsOpenIn(open: Option<string>, category: nat, question: nat) {
    open == Some(Key(category, question))
  }

  /** At most one question is open: two open questions are the same question. */
  lemma AtMostOneOpen(open: Option<string>, c: nat, q: nat, c': nat, q': nat)
    requires IsOpenIn(open, c, q) && IsOpenIn(open, c', q')
    ensures c == c' && q == q'
  {
    KeyInjective(c, q, c', q');
  }

  /**
   * Toggling a question opens it and closes every other one, or closes it when it was the open
   * one; toggling it twice from closed leaves everything closed.
   */
  lemma ToggleLaws(open: Option<string>, c: nat, q: nat, c': nat, q': nat)
    ensures IsOpenIn(Toggled(open, Key(c, q)), c, q) <==> !IsOpenIn(open, c, q)
    ensures (c', q') != (c, q) ==> !IsOpenIn(Toggled(open, Key(c, q)), c', q')
    ensures Toggled(Toggled(None, Key(c, q)), Key(c, q)) == None
  {
    if (c', q') != (c, q) && IsOpenIn(Toggled(open, Key(c, q)), c', q') {
      if !IsOpenIn(open, c, q) {
        KeyInjective(c, q, c', q');
      }
    }
  }

  class FaqPage {
    var openIndex: Option<string>

    constructor ()
      ensures openIndex.None?
    {
      openIndex := None;
    }

    /** A question renders open exactly when its key is the open index. */
    predicate IsOpen(category: nat, question: nat)
      reads this
    {
      IsOpenIn(openIndex, category, question)
    }

    method ToggleQuestion(category: nat, question: nat)
      modifies this
      ensures openIndex == Toggled(old(openIndex), Key(category, question))
    {
      var index := Key(category, question);
      openIndex := if openIndex == Some(index) then None else Some(index);
    }
  }
}
