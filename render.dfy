/**
 * The branch every list renderer of the storefront takes: a result that is
 * present and non-empty becomes one HTML fragment per item, in the order of
 * the items, joined with nothing in between (`data.map(...).join('')`); a
 * missing (null) or empty result becomes the section's fixed placeholder.
 * The fragment template of each section is a parameter.
 */
module Render {
  import opened Wrappers

  /** `Array.prototype.join('')`. */
  function Join(fragments: seq<string>): string
    decreases |fragments|
  {
    if fragments == [] then "" else Join(fragments[..|fragments| - 1]) + fragments[|fragments| - 1]
  }

  /** `items.map(fragment)`. */
  function Fragments<T>(items: seq<T>, fragment: T -> string): (fs: seq<string>)
    ensures |fs| == |items|
  {
    seq(|items|, i requires 0 <= i < |items| => fragment(items[i]))
  }

  /** `data && data.length > 0`. */
  predicate HasItems<T>(data: Option<seq<T>>) {
    data.Some? && |data.value| > 0
  }

  function RenderList<T>(data: Option<seq<T>>, fragment: T -> string, placeholder: string): string {
    if HasItems(data) then Join(Fragments(data.value, fragment)) else placeholder
  }

  /** Total length of a list of fragments. */
  function TotalLength(fragments: seq<string>): nat
    decreases |fragments|
  {
    if fragments == [] then 0 else TotalLength(fragments[..|fragments| - 1]) + |fragments[|fragments| - 1]|
  }

  lemma {:induction false} JoinPrefix(fragments: seq<string>, k: nat)
    requires k <= |fragments|
    ensures Join(fragments[..k]) <= Join(fragments)
    ensures |Join(fragments)| == TotalLength(fragments)
    decreases |fragments|
  {
    if fragments != [] {
      var init := fragments[..|fragments| - 1];
      if k < |fragments| {
        assert fragments[..k] == init[..k];
        JoinPrefix(init, k);
      } else {
        assert fragments[..k] == fragments;
        JoinPrefix(init, 0);
      }
    }
  }

  /**
   * The k-th fragment appears whole in the joined text, right after the
   * fragments of the items before it.
   */
  lemma FragmentAt(fragments: seq<string>, k: nat)
    requires k < |fragments|
    ensures var start := TotalLength(fragments[..k]);
      start + |fragments[k]| <= |Join(fragments)|
      && Join(fragments)[start..start + |fragments[k]|] == fragments[k]
  {
    var before, upTo := fragments[..k], fragments[..k + 1];
    assert upTo[..k] == before;
    assert Join(upTo) == Join(before) + fragments[k];
    JoinPrefix(fragments, k + 1);
    JoinPrefix(before, 0);
  }

  /**
   * A non-empty list renders as one fragment per item, in item order: the
   * text is exactly as long as the fragments together, and each item's
   * fragment sits right after those of the items before it.
   */
  lemma RenderedInItemOrder<T>(items: seq<T>, fragment: T -> string, placeholder: string)
    requires |items| > 0
    ensures var html := RenderList(Some(items), fragment, placeholder);
      |html| == TotalLength(Fragments(items, fragment))
      && forall k :: 0 <= k < |items| ==>
           var start := TotalLength(Fragments(items[..k], fragment));
           start + |fragment(items[k])| <= |html|
           && html[start..start + |fragment(items[k])|] == fragment(items[k])
  {
    var fs := Fragments(items, fragment);
    JoinPrefix(fs, 0);
    forall k | 0 <= k < |items|
      ensures var start := TotalLength(Fragments(items[..k], fragment));
        start + |fragment(items[k])| <= |Join(fs)|
        && Join(fs)[start..start + |fragment(items[k])|] == fragment(items[k])
    {
      assert Fragments(items[..k], fragment) == fs[..k];
      FragmentAt(fs, k);
    }
  }

  /** A missing or empty result renders as the placeholder and nothing else. */
  lemma EmptyRendersPlaceholder<T>(data: Option<seq<T>>, fragment: T -> string, placeholder: string)
    requires data.None? || data.value == []
    ensures RenderList(data, fragment, placeholder) == placeholder
  {
  }
}
