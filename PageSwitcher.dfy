/**
 * The page switcher widget (UWhiskerwoodPageSwitcherWidget): a table of
 * named pages over a widget switcher, built from the switcher's children
 * when left empty, with lookups by page id and by child index that take
 * the first matching page.
 */
module PageSwitcher {
  import opened Common

  /** FWhiskerwoodPageDef: a page id, its display text and its child index. */
  datatype PageDef = PageDef(pageId: FName, displayName: string, switcherIndex: int)

  /** FText::FromName: the name's text, "None" for NAME_None. */
  function NameText(name: FName): string {
    if name.NameNone? then "None" else name.text
  }

  /** The underlying UWidgetSwitcher: its children (None for a null slot) and the shown index. */
  class WidgetSwitcher {
    const children: seq<Option<FName>>
    var activeWidgetIndex: int

    constructor (children: seq<Option<FName>>)
      ensures this.children == children && activeWidgetIndex == 0
    {
      this.children := children;
      activeWidgetIndex := 0;
    }
  }

  /** The pages auto-built from a switcher's children: one per non-null child, in order. */
  function BuiltPages(children: seq<Option<FName>>): (pages: seq<PageDef>)
    ensures |pages| <= |children|
    ensures forall k :: 0 <= k < |pages| ==>
      && 0 <= pages[k].switcherIndex < |children|
      && children[pages[k].switcherIndex] == Some(pages[k].pageId)
      && pages[k].displayName == NameText(pages[k].pageId)
    ensures forall k, l :: 0 <= k < l < |pages| ==> pages[k].switcherIndex < pages[l].switcherIndex
    decreases |children|
  {
    if children == [] then []
    else
      var init := children[..|children| - 1];
      var last := children[|children| - 1];
      BuiltPages(init) + (if last.Some? then [PageDef(last.value, NameText(last.value), |init|)] else [])
  }

  /** The index of the first page with the given child index, or the number of pages. */
  function FirstWithIndex(pages: seq<PageDef>, index: int): (k: nat)
    ensures k <= |pages|
    ensures k < |pages| ==> pages[k].switcherIndex == index
    ensures forall j :: 0 <= j < k ==> pages[j].switcherIndex != index
    decreases |pages|
  {
    if pages == [] then 0
    else if pages[0].switcherIndex == index then 0
    else 1 + FirstWithIndex(pages[1..], index)
  }

  /** The index of the first page with the given id, or the number of pages. */
  function FirstWithId(pages: seq<PageDef>, id: FName): (k: nat)
    ensures k <= |pages|
    ensures k < |pages| ==> pages[k].pageId == id
    ensures forall j :: 0 <= j < k ==> pages[j].pageId != id
    decreases |pages|
  {
    if pages == [] then 0
    else if pages[0].pageId == id then 0
    else 1 + FirstWithId(pages[1..], id)
  }

  /** The ActivePageId ShowPageByIndex records: the first page on that child, else None. */
  function PageIdAtIndex(pages: seq<PageDef>, index: int): FName {
    var k := FirstWithIndex(pages, index);
    if k < |pages| then pages[k].pageId else NameNone
  }

  /** GetDisplayNameForPageId: the first matching page's display name, else empty. */
  function DisplayNameFor(pages: seq<PageDef>, id: FName): string {
    var k := FirstWithId(pages, id);
    if k < |pages| then pages[k].displayName else ""
  }

  /** The first page whose id is not None, or the number of pages. */
  function FirstNamed(pages: seq<PageDef>): (k: nat)
    ensures k <= |pages|
    ensures k < |pages| ==> !pages[k].pageId.IsNone()
    ensures forall j :: 0 <= j < k ==> pages[j].pageId.IsNone()
    decreases |pages|
  {
    if pages == [] then 0
    else if !pages[0].pageId.IsNone() then 0
    else 1 + FirstNamed(pages[1..])
  }

  /** Every non-null child gets a page. */
  lemma {:induction false} BuiltPagesComplete(children: seq<Option<FName>>, i: int)
    requires 0 <= i < |children| && children[i].Some?
    ensures exists k :: 0 <= k < |BuiltPages(children)| && BuiltPages(children)[k].switcherIndex == i
    decreases |children|
  {
    var init := children[..|children| - 1];
    var pages := BuiltPages(children);
    if i == |children| - 1 {
      assert pages[|pages| - 1].switcherIndex == i;
    } else {
      assert init[i] == children[i];
      BuiltPagesComplete(init, i);
      var k :| 0 <= k < |BuiltPages(init)| && BuiltPages(init)[k].switcherIndex == i;
      assert pages[k] == BuiltPages(init)[k];
    }
  }

  /**
   * On auto-built pages, the page shown at a non-null child is that
   * child's own page.
   */
  lemma {:induction false} BuiltPageAtIndex(children: seq<Option<FName>>, i: int)
    requires 0 <= i < |children| && children[i].Some?
    ensures PageIdAtIndex(BuiltPages(children), i) == children[i].value
  {
    var pages := BuiltPages(children);
    BuiltPagesComplete(children, i);
    var k :| 0 <= k < |pages| && pages[k].switcherIndex == i;
    assert FirstWithIndex(pages, i) == k;
  }

  /**
   * On auto-built pages, showing a child's name by id shows a child of
   * that name and records that name as the active page: id and index
   * round-trip.
   */
  lemma {:induction false} BuiltPagesRoundTrip(children: seq<Option<FName>>, i: int)
    requires 0 <= i < |children| && children[i].Some?
    ensures var pages := BuiltPages(children);
      var k := FirstWithId(pages, children[i].value);
      && k < |pages|
      && 0 <= pages[k].switcherIndex < |children|
      && PageIdAtIndex(pages, pages[k].switcherIndex) == children[i].value
  {
    var pages := BuiltPages(children);
    var n := children[i].value;
    BuiltPagesComplete(children, i);
    var w :| 0 <= w < |pages| && pages[w].switcherIndex == i;
    assert pages[w].pageId == n;
    var k := FirstWithId(pages, n);
    assert k <= w;
    BuiltPageAtIndex(children, pages[k].switcherIndex);
  }

  /**
   * In any table where page `j` is the first on its child index and a later
   * page `k` shares that index, showing page `k` records page `j`'s id as
   * active, even when `k` was found by its own id.
   */
  lemma {:induction false} SharedIndexRecordsFirstPage(pages: seq<PageDef>, j: nat, k: nat)
    requires j < k < |pages|
    requires pages[j].switcherIndex == pages[k].switcherIndex
    requires forall i :: 0 <= i < j ==> pages[i].switcherIndex != pages[j].switcherIndex
    ensures FirstWithIndex(pages, pages[k].switcherIndex) == j
    ensures PageIdAtIndex(pages, pages[k].switcherIndex) == pages[j].pageId
  {
  }

  /** One OnActivePageChanged event. */
  datatype PageChange = PageChange(pageId: FName, index: int)

  /** The widget: its switcher (null when unbound), its pages and the active id. */
  class PageSwitcherWidget {
    const pageSwitcher: WidgetSwitcher?
    var pages: seq<PageDef>
    var activePageId: FName
    /** The OnActivePageChanged events fired so far. */
    var changes: seq<PageChange>

    constructor (pageSwitcher: WidgetSwitcher?, pages: seq<PageDef>)
      ensures this.pageSwitcher == pageSwitcher && this.pages == pages
      ensures activePageId == NameNone && changes == []
    {
      this.pageSwitcher := pageSwitcher;
      this.pages := pages;
      activePageId := NameNone;
      changes := [];
    }

    /** ShowPageByIndex's acceptance test. */
    predicate IndexShowable(index: int)
      reads this, pageSwitcher
    {
      pageSwitcher != null && 0 <= index < |pageSwitcher.children|
    }

    /** BuildPagesFromSwitcherIfEmpty: only an empty table is built, from the children. */
    method BuildPagesFromSwitcherIfEmpty()
      modifies this`pages
      ensures pages == if pageSwitcher == null || old(pages) != [] then old(pages) else BuiltPages(pageSwitcher.children)
    {
      if pageSwitcher == null {
        return;
      }
      if |pages| > 0 {
        return;
      }
      var children := pageSwitcher.children;
      var index := 0;
      while index < |children|
        invariant 0 <= index <= |children|
        invariant pages == BuiltPages(children[..index])
      {
        assert children[..index + 1][..index] == children[..index];
        var child := children[index];
        if child.Some? {
          pages := pages + [PageDef(child.value, NameText(child.value), index)];
        }
        index := index + 1;
      }
      assert children[..index] == children;
    }

    /**
     * ShowPageByIndex: refuse an index outside the children; otherwise
     * show it and record the first page on it (None when none is).
     */
    method ShowPageByIndex(index: int) returns (ok: bool)
      modifies this`activePageId, this`changes, pageSwitcher
      ensures ok == old(IndexShowable(index))
      ensures !ok ==>
        && activePageId == old(activePageId) && changes == old(changes)
        && (pageSwitcher != null ==> unchanged(pageSwitcher))
      ensures ok ==>
        && pageSwitcher.activeWidgetIndex == index
        && activePageId == PageIdAtIndex(pages, index)
        && changes == old(changes) + [PageChange(activePageId, index)]
    {
      if pageSwitcher == null {
        return false;
      }
      var numChildren := |pageSwitcher.children|;
      if index < 0 || index >= numChildren {
        return false;
      }
      pageSwitcher.activeWidgetIndex := index;
      var k := FindPageWithIndex(pages, index);
      var newId := NameNone;
      if k < |pages| {
        newId := pages[k].pageId;
      }
      activePageId := newId;
      changes := changes + [PageChange(activePageId, index)];
      return true;
    }

    /**
     * ShowPageById: refuse None and unknown ids; otherwise show the child
     * of the first page with the id.
     */
    method ShowPageById(pageId: FName) returns (ok: bool)
      modifies this`activePageId, this`changes, pageSwitcher
      ensures var k := FirstWithId(pages, pageId);
        ok <==> old(pageSwitcher != null && !pageId.IsNone() && k < |pages| && IndexShowable(pages[k].switcherIndex))
      ensures !ok ==>
        && activePageId == old(activePageId) && changes == old(changes)
        && (pageSwitcher != null ==> unchanged(pageSwitcher))
      ensures ok ==>
        var index := pages[FirstWithId(pages, pageId)].switcherIndex;
        && pageSwitcher.activeWidgetIndex == index
        && activePageId == PageIdAtIndex(pages, index)
        && changes == old(changes) + [PageChange(activePageId, index)]
    {
      if pageSwitcher == null || pageId.IsNone() {
        return false;
      }
      var k := FindPageWithId(pages, pageId);
      if k == |pages| {
        return false;
      }
      ok := ShowPageByIndex(pages[k].switcherIndex);
    }

    /** GetDisplayNameForPageId. */
    method GetDisplayNameForPageId(pageId: FName) returns (name: string)
      ensures name == DisplayNameFor(pages, pageId)
    {
      var k := FindPageWithId(pages, pageId);
      if k < |pages| {
        return pages[k].displayName;
      }
      return "";
    }

    /**
     * NativeOnInitialized: build the table if it is empty, then show the
     * first page whose id is not None.
     */
    method NativeOnInitialized()
      modifies this`pages, this`activePageId, this`changes, pageSwitcher
      ensures pages == if pageSwitcher == null || old(pages) != [] then old(pages) else BuiltPages(pageSwitcher.children)
      ensures pageSwitcher == null || FirstNamed(pages) == |pages| ==>
        && activePageId == old(activePageId) && changes == old(changes)
        && (pageSwitcher != null ==> unchanged(pageSwitcher))
      ensures FirstNamed(pages) < |pages| && pageSwitcher != null ==>
        var index := pages[FirstNamed(pages)].switcherIndex;
        && (0 <= index < |pageSwitcher.children| ==>
              && pageSwitcher.activeWidgetIndex == index
              && activePageId == PageIdAtIndex(pages, index)
              && changes == old(changes) + [PageChange(activePageId, index)])
        && (!(0 <= index < |pageSwitcher.children|) ==>
              activePageId == old(activePageId) && changes == old(changes) && unchanged(pageSwitcher))
    {
      BuildPagesFromSwitcherIfEmpty();
      var k := FindFirstNamed(pages);
      if k < |pages| {
        FirstNamedIsFirstWithItsId(pages);
        var _ := ShowPageById(pages[k].pageId);
      }
    }
  }

  /** The first page with a name is also the first page carrying that name. */
  lemma FirstNamedIsFirstWithItsId(pages: seq<PageDef>)
    requires FirstNamed(pages) < |pages|
    ensures FirstWithId(pages, pages[FirstNamed(pages)].pageId) == FirstNamed(pages)
  {
  }

  /** The first page whose id is not None, as NativeOnInitialized's loop finds it. */
  method FindFirstNamed(pages: seq<PageDef>) returns (k: nat)
    ensures k == FirstNamed(pages)
  {
    k := 0;
    while k < |pages|
      invariant k <= |pages|
      invariant forall j :: 0 <= j < k ==> pages[j].pageId.IsNone()
    {
      if !pages[k].pageId.IsNone() {
        return;
      }
      k := k + 1;
    }
  }

  /** The first page on a child index, as ShowPageByIndex's loop finds it. */
  method FindPageWithIndex(pages: seq<PageDef>, index: int) returns (k: nat)
    ensures k == FirstWithIndex(pages, index)
  {
    k := 0;
    while k < |pages|
      invariant k <= |pages|
      invariant forall j :: 0 <= j < k ==> pages[j].switcherIndex != index
    {
      if pages[k].switcherIndex == index {
        return;
      }
      k := k + 1;
    }
  }

  /** The first page with an id, as ShowPageById's loop finds it. */
  method FindPageWithId(pages: seq<PageDef>, id: FName) returns (k: nat)
    ensures k == FirstWithId(pages, id)
  {
    k := 0;
    while k < |pages|
      invariant k <= |pages|
      invariant forall j :: 0 <= j < k ==> pages[j].pageId != id
    {
      if pages[k].pageId == id {
        return;
      }
      k := k + 1;
    }
  }
}
