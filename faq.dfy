/** The FAQ accordion: one optional open index, toggled by clicking a question. */
module Faq {
  import opened Wrappers

  datatype FaqItem = FaqItem(question: string, answer: string)

  /** What one rendered item shows: its question, whether it is expanded, and its answer if so. */
  datatype Panel = Panel(question: string, expanded: bool, answer: Option<string>)

  /** `openIndex === index ? null : index`. */
  function Toggled(openIndex: Option<nat>, index: nat): (next: Option<nat>)
    ensures openIndex == Some(index) ==> next.None?
    ensures openIndex != Some(index) ==> next == Some(index)
  {
    if openIndex == Some(index) then None else Some(index)
  }

  /** Toggling the same question twice restores an open item and closes any other. */
  lemma ToggleTwice(openIndex: Option<nat>, index: nat)
    ensures Toggled(Toggled(openIndex, index), index) == (if openIndex == Some(index) then openIndex else None)
  {
  }

  /** The rendered list: `aria-expanded` and the answer panel follow `openIndex === index`. */
  function Panels(items: seq<FaqItem>, openIndex: Option<nat>): (panels: seq<Panel>)
    ensures |panels| == |items|
    ensures forall i :: 0 <= i < |panels| ==> panels[i].question == items[i].question
    ensures forall i :: 0 <= i < |panels| ==> (panels[i].expanded <==> openIndex == Some(i))
    ensures forall i :: 0 <= i < |panels| ==>
      panels[i].answer == (if panels[i].expanded then Some(items[i].answer) else None)
  {
    seq(|items|, i requires 0 <= i < |items| =>
      Panel(items[i].question, openIndex == Some(i),
            if openIndex == Some(i) then Some(items[i].answer) else None))
  }

  /** At most one answer is shown, and it is the open item's. */
  lemma AtMostOneShown(items: seq<FaqItem>, openIndex: Option<nat>, i: nat, j: nat)
    requires i < |items| && j < |items|
    requires Panels(items, openIndex)[i].answer.Some? && Panels(items, openIndex)[j].answer.Some?
    ensures i == j && openIndex == Some(i)
  {
  }

  /** After a click on question `index`, it alone is expanded, or nothing is if it was open. */
  lemma ClickExpands(items: seq<FaqItem>, openIndex: Option<nat>, index: nat, j: nat)
    requires index < |items| && j < |items|
    ensures Panels(items, Toggled(openIndex, index))[j].expanded <==> j == index && openIndex != Some(index)
  {
  }

  /** The component's state. */
  class FaqSection {
    const items: seq<FaqItem>
    var openIndex: Option<nat>

    /** Mounting the component: nothing open. */
    constructor (items: seq<FaqItem>)
      ensures this.items == items && openIndex.None?
    {
      this.items := items;
      openIndex := None;
    }

    /** `toggleAccordion`: close the open item, or open the clicked one in place of any other. */
    method ToggleAccordion(index: nat)
      modifies this
      ensures openIndex == Toggled(old(openIndex), index)
      ensures old(openIndex) == Some(index) ==> openIndex.None?
      ensures old(openIndex) != Some(index) ==> openIndex == Some(index)
    {
      openIndex := if openIndex == Some(index) then None else Some(index);
    }
  }
}
