/**
 * The pagination bar under the product listing (updatePagination). Given the
 * current page P and the number of pages T it lays out, in order: a
 * "previous" control when P > 1, one button per page from max(1, P - 2) to
 * min(T, P + 2) with the button for P marked active, and a "next" control
 * when P < T. With T <= 1 there is no bar at all and the container keeps
 * whatever it showed before.
 *
 * The markup of each control is left abstract: a control is its kind, the
 * page its click asks for, and whether it carries the "active" class.
 */
module Pagination {
  import opened Wrappers

  datatype ControlKind = Previous | PageNumber | Next

  datatype Control = Control(kind: ControlKind, target: int, active: bool)

  function Max(a: int, b: int): int {
    if a >= b then a else b
  }

  function Min(a: int, b: int): int {
    if a <= b then a else b
  }

  /** How many pages the window shows on each side of the current one. */
  const Radius := 2

  function WindowStart(currentPage: int): int {
    Max(1, currentPage - Radius)
  }

  function WindowEnd(currentPage: int, totalPages: int): int {
    Min(totalPages, currentPage + Radius)
  }

  function PageButton(i: int, currentPage: int): Control {
    Control(PageNumber, i, i == currentPage)
  }

  /** The buttons for pages lo..hi, in the order the loop appends them. */
  function PageButtons(lo: int, hi: int, currentPage: int): seq<Control>
    decreases hi - lo
  {
    if hi < lo then [] else PageButtons(lo, hi - 1, currentPage) + [PageButton(hi, currentPage)]
  }

  function PreviousControl(currentPage: int): seq<Control> {
    if currentPage > 1 then [Control(Previous, currentPage - 1, false)] else []
  }

  function NextControl(currentPage: int, totalPages: int): seq<Control> {
    if currentPage < totalPages then [Control(Next, currentPage + 1, false)] else []
  }

  /** The bar updatePagination writes, or None when it returns without writing. */
  function PaginationBar(currentPage: int, totalPages: int): (bar: Option<seq<Control>>)
    ensures bar.None? <==> totalPages <= 1
  {
    if totalPages <= 1 then None
    else Some(PreviousControl(currentPage)
              + PageButtons(WindowStart(currentPage), WindowEnd(currentPage, totalPages), currentPage)
              + NextControl(currentPage, totalPages))
  }

  /** updatePagination's loop: the bar built control by control. */
  method BuildPaginationBar(currentPage: int, totalPages: int) returns (bar: Option<seq<Control>>)
    ensures bar == PaginationBar(currentPage, totalPages)
  {
    if totalPages <= 1 {
      return None;
    }
    var controls: seq<Control> := [];
    if currentPage > 1 {
      controls := controls + [Control(Previous, currentPage - 1, false)];
    }
    var first := WindowStart(currentPage);
    var last := WindowEnd(currentPage, totalPages);
    var i := first;
    while i <= last
      invariant i == first || first <= i <= last + 1
      invariant controls == PreviousControl(currentPage) + PageButtons(first, i - 1, currentPage)
      decreases last - i
    {
      var active := i == currentPage;
      controls := controls + [Control(PageNumber, i, active)];
      i := i + 1;
    }
    assert PageButtons(first, i - 1, currentPage) == PageButtons(first, last, currentPage);
    if currentPage < totalPages {
      controls := controls + [Control(Next, currentPage + 1, false)];
    }
    bar := Some(controls);
    assert controls == PreviousControl(currentPage) + PageButtons(first, last, currentPage) + NextControl(currentPage, totalPages);
  }

  // ---------------------------------------------------------------------------
  // What the bar contains

  /** The integers lo..hi in ascending order (empty when the range is inverted). */
  function Range(lo: int, hi: int): (r: seq<int>)
    ensures |r| == Max(0, hi - lo + 1)
  {
    seq(Max(0, hi - lo + 1), k => lo + k)
  }

  /** The pages the page-number buttons of cs lead to, in order. */
  function PageTargets(cs: seq<Control>): seq<int>
    decreases |cs|
  {
    if cs == [] then []
    else PageTargets(cs[..|cs| - 1]) + (if cs[|cs| - 1].kind == PageNumber then [cs[|cs| - 1].target] else [])
  }

  lemma {:induction false} PageButtonsAt(lo: int, hi: int, currentPage: int)
    ensures |PageButtons(lo, hi, currentPage)| == Max(0, hi - lo + 1)
    ensures forall k :: 0 <= k < |PageButtons(lo, hi, currentPage)| ==>
              PageButtons(lo, hi, currentPage)[k] == PageButton(lo + k, currentPage)
    decreases hi - lo
  {
    if hi >= lo {
      PageButtonsAt(lo, hi - 1, currentPage);
    }
  }

  lemma {:induction false} PageTargetsConcat(a: seq<Control>, b: seq<Control>)
    ensures PageTargets(a + b) == PageTargets(a) + PageTargets(b)
    decreases |b|
  {
    if b == [] {
      assert a + b == a;
    } else {
      var b' := b[..|b| - 1];
      assert (a + b)[..|a + b| - 1] == a + b';
      PageTargetsConcat(a, b');
    }
  }

  lemma {:induction false} PageTargetsOfButtons(lo: int, hi: int, currentPage: int)
    ensures PageTargets(PageButtons(lo, hi, currentPage)) == Range(lo, hi)
    decreases hi - lo
  {
    if hi >= lo {
      var bs := PageButtons(lo, hi - 1, currentPage);
      PageTargetsOfButtons(lo, hi - 1, currentPage);
      PageTargetsConcat(bs, [PageButton(hi, currentPage)]);
      assert PageTargets([PageButton(hi, currentPage)]) == [hi];
      assert Range(lo, hi) == Range(lo, hi - 1) + [hi];
    }
  }

  /**
   * Where each control sits: the optional "previous" first, then the page
   * buttons for the window in ascending order, then the optional "next".
   */
  lemma BarLayout(currentPage: int, totalPages: int)
    requires totalPages > 1
    ensures var bar := PaginationBar(currentPage, totalPages).value;
      var lo, hi := WindowStart(currentPage), WindowEnd(currentPage, totalPages);
      var off := if currentPage > 1 then 1 else 0;
      var n := Max(0, hi - lo + 1);
      |bar| == off + n + (if currentPage < totalPages then 1 else 0)
      && (currentPage > 1 ==> bar[0] == Control(Previous, currentPage - 1, false))
      && (forall k :: off <= k < off + n ==> bar[k] == PageButton(lo + (k - off), currentPage))
      && (currentPage < totalPages ==> bar[|bar| - 1] == Control(Next, currentPage + 1, false))
  {
    var lo, hi := WindowStart(currentPage), WindowEnd(currentPage, totalPages);
    var prev, buttons, next := PreviousControl(currentPage), PageButtons(lo, hi, currentPage), NextControl(currentPage, totalPages);
    PageButtonsAt(lo, hi, currentPage);
    var bar := prev + buttons + next;
    assert PaginationBar(currentPage, totalPages).value == bar;
    forall k | |prev| <= k < |prev| + |buttons| ensures bar[k] == buttons[k - |prev|] {
    }
  }

  /** A "previous" control appears exactly when P > 1; it asks for page P - 1 and comes first. */
  lemma PreviousIffNotFirstPage(currentPage: int, totalPages: int)
    requires totalPages > 1
    ensures var bar := PaginationBar(currentPage, totalPages).value;
      ((exists k :: 0 <= k < |bar| && bar[k].kind == Previous) <==> currentPage > 1)
      && (currentPage > 1 ==> bar[0] == Control(Previous, currentPage - 1, false))
      && (forall k :: 0 < k < |bar| ==> bar[k].kind != Previous)
  {
    BarLayout(currentPage, totalPages);
    var bar := PaginationBar(currentPage, totalPages).value;
    if currentPage > 1 {
      assert bar[0].kind == Previous;
    }
  }

  /** A "next" control appears exactly when P < T; it asks for page P + 1 and comes last. */
  lemma NextIffNotLastPage(currentPage: int, totalPages: int)
    requires totalPages > 1
    ensures var bar := PaginationBar(currentPage, totalPages).value;
      ((exists k :: 0 <= k < |bar| && bar[k].kind == Next) <==> currentPage < totalPages)
      && (currentPage < totalPages ==> bar[|bar| - 1] == Control(Next, currentPage + 1, false))
      && (forall k :: 0 <= k < |bar| - 1 ==> bar[k].kind != Next)
  {
    BarLayout(currentPage, totalPages);
    var bar := PaginationBar(currentPage, totalPages).value;
    if currentPage < totalPages {
      assert bar[|bar| - 1].kind == Next;
    }
  }

  /**
   * The page-number buttons lead to exactly the pages max(1, P - 2) ..
   * min(T, P + 2), ascending: at most five of them, each a page in 1..T.
   */
  lemma PageNumbersAreWindow(currentPage: int, totalPages: int)
    requires totalPages > 1
    ensures var targets := PageTargets(PaginationBar(currentPage, totalPages).value);
      targets == Range(WindowStart(currentPage), WindowEnd(currentPage, totalPages))
      && |targets| <= 2 * Radius + 1
      && (forall k :: 0 <= k < |targets| ==> 1 <= targets[k] <= totalPages)
      && (forall j, k :: 0 <= j < k < |targets| ==> targets[j] < targets[k])
  {
    var lo, hi := WindowStart(currentPage), WindowEnd(currentPage, totalPages);
    var prev, buttons, next := PreviousControl(currentPage), PageButtons(lo, hi, currentPage), NextControl(currentPage, totalPages);
    PageTargetsConcat(prev + buttons, next);
    PageTargetsConcat(prev, buttons);
    PageTargetsOfButtons(lo, hi, currentPage);
    assert PageTargets(prev) == [] by {
      if prev != [] {
        assert prev[..0] == [];
      }
    }
    assert PageTargets(next) == [] by {
      if next != [] {
        assert next[..0] == [];
      }
    }
  }

  /**
   * Only the button for the current page is active; when P is a page in
   * 1..T there is exactly one active control.
   */
  lemma ActiveIsCurrentPage(currentPage: int, totalPages: int)
    requires totalPages > 1
    ensures var bar := PaginationBar(currentPage, totalPages).value;
      (forall k :: 0 <= k < |bar| ==>
         (bar[k].active <==> bar[k].kind == PageNumber && bar[k].target == currentPage))
      && (1 <= currentPage <= totalPages ==>
            (exists k :: 0 <= k < |bar| && bar[k].active)
            && (forall j, k :: 0 <= j < |bar| && 0 <= k < |bar| && bar[j].active && bar[k].active ==> j == k))
  {
    BarLayout(currentPage, totalPages);
    var bar := PaginationBar(currentPage, totalPages).value;
    var lo := WindowStart(currentPage);
    var off := if currentPage > 1 then 1 else 0;
    if 1 <= currentPage <= totalPages {
      var k := off + (currentPage - lo);
      assert bar[k] == PageButton(currentPage, currentPage);
    }
  }

  /** When P is a page in 1..T every control, including "previous" and "next", leads to a page in 1..T. */
  lemma TargetsAreValidPages(currentPage: int, totalPages: int)
    requires totalPages > 1 && 1 <= currentPage <= totalPages
    ensures var bar := PaginationBar(currentPage, totalPages).value;
      forall k :: 0 <= k < |bar| ==> 1 <= bar[k].target <= totalPages
  {
    BarLayout(currentPage, totalPages);
  }
}
