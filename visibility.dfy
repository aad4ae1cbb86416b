/** The module filter: which modules stay visible for the current search text
    and the active tag button.  The query arrives already trimmed and
    lower-cased, each module's text already lower-cased and its tag attribute
    already split into words. */
module Visibility {
  import opened Wrappers

  /** The tag that matches every module. */
  const AllTag: string := "alla"

  /** What the filter looks at in one module: its lower-cased text and its tags. */
  datatype ModuleCard = ModuleCard(text: string, tags: seq<string>)

  /** The active tag: the active button's tag, or "alla" when there is no active
      button or its tag is empty. */
  function ActiveTag(buttonTag: Option<string>): (tag: string)
    ensures tag != ""
    ensures buttonTag.Some? && buttonTag.value != "" ==> tag == buttonTag.value
    ensures buttonTag.None? || buttonTag.value == "" ==> tag == AllTag
  {
    if buttonTag.Some? && buttonTag.value != "" then buttonTag.value else AllTag
  }

  /** `text.includes(q)`: q starts at some position of text. */
  predicate Contains(text: string, q: string)
    ensures q <= text ==> Contains(text, q)
    ensures Contains(text, q) ==> |q| <= |text|
    decreases |text|
  {
    q <= text || (text != [] && Contains(text[1..], q))
  }

  /** Contains finds exactly the positions where the query occurs. */
  lemma {:induction false} ContainsAt(text: string, q: string)
    ensures Contains(text, q) <==> exists i :: 0 <= i <= |text| && q <= text[i..]
    decreases |text|
  {
    if q <= text {
      assert text[0..] == text;
    } else if text == [] {
      forall i | 0 <= i <= |text| ensures !(q <= text[i..]) {
        assert text[i..] == text;
      }
    } else {
      ContainsAt(text[1..], q);
      if Contains(text[1..], q) {
        var j :| 0 <= j <= |text[1..]| && q <= text[1..][j..];
        assert text[1..][j..] == text[j + 1..];
      } else {
        forall i | 0 <= i <= |text| ensures !(q <= text[i..]) {
          if i == 0 {
            assert text[i..] == text;
          } else {
            assert text[1..][i - 1..] == text[i..];
          }
        }
      }
    }
  }

  /** A text that contains a query contains every prefix of it. */
  lemma {:induction false} ContainsPrefix(text: string, q: string, p: string)
    requires p <= q && Contains(text, q)
    ensures Contains(text, p)
    decreases |text|
  {
    if q <= text {
      assert p == q[..|p|] == text[..|p|];
    } else {
      ContainsPrefix(text[1..], q, p);
    }
  }

  predicate TagMatches(activeTag: string, tags: seq<string>) {
    activeTag == AllTag || activeTag in tags
  }

  /** An empty query matches everything. */
  predicate QueryMatches(query: string, text: string) {
    query == "" || Contains(text, query)
  }

  /** The per-module rule: shown when both the tag and the query match. */
  predicate Visible(query: string, activeTag: string, card: ModuleCard) {
    TagMatches(activeTag, card.tags) && QueryMatches(query, card.text)
  }

  /** A module is visible exactly when the tag is "alla" or one of its tags, and
      the query is empty or occurs at some position of its text. */
  lemma VisibleIff(query: string, activeTag: string, card: ModuleCard)
    ensures Visible(query, activeTag, card) <==>
      (activeTag == AllTag || exists k :: 0 <= k < |card.tags| && card.tags[k] == activeTag) &&
      (query == "" || exists i :: 0 <= i <= |card.text| && query <= card.text[i..])
  {
    ContainsAt(card.text, query);
  }

  /** For the same module text, typing further characters into the search box
      can only hide modules. */
  lemma NarrowingHides(query: string, longer: string, activeTag: string, card: ModuleCard)
    requires query <= longer
    requires Visible(longer, activeTag, card)
    ensures Visible(query, activeTag, card)
  {
    if query != "" {
      assert longer != "";
      ContainsPrefix(card.text, longer, query);
    }
  }

  /** `applyVisibility`: decide, module by module, whether it is shown. */
  method ApplyVisibility(modules: seq<ModuleCard>, query: string, buttonTag: Option<string>)
    returns (shown: seq<bool>)
    ensures |shown| == |modules|
    ensures forall k :: 0 <= k < |modules| ==> shown[k] == Visible(query, ActiveTag(buttonTag), modules[k])
  {
    var activeTag := ActiveTag(buttonTag);
    shown := [];
    var i := 0;
    while i < |modules|
      invariant i <= |modules| && |shown| == i
      invariant forall k :: 0 <= k < i ==> shown[k] == Visible(query, activeTag, modules[k])
    {
      shown := shown + [Visible(query, activeTag, modules[i])];
      i := i + 1;
    }
  }
}
