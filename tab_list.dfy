/** The tabs of the target window, as `chrome.tabs.query` hands them over,
    and the filter the close button applies to them. */
module TabList {

  /** The fields of a browser tab the preview page reads. Tab ids handed out
      by the browser for tabs in a window are non-negative. */
  datatype Tab = Tab(id: nat, windowId: int, title: string, favIconUrl: string)

  /** `tabs.filter(t => t.id !== id)`. */
  function WithoutId(tabs: seq<Tab>, id: nat): (r: seq<Tab>)
    ensures |r| <= |tabs|
    ensures forall t :: t in r ==> t in tabs && t.id != id
    ensures forall t :: t in tabs && t.id != id ==> t in r
  {
    if tabs == [] then []
    else if tabs[0].id == id then WithoutId(tabs[1..], id)
    else [tabs[0]] + WithoutId(tabs[1..], id)
  }

  /** Filtering a concatenation filters each part and keeps them in order,
      so the surviving tabs keep their relative order. */
  lemma {:induction false} WithoutIdDistributes(a: seq<Tab>, b: seq<Tab>, id: nat)
    ensures WithoutId(a + b, id) == WithoutId(a, id) + WithoutId(b, id)
  {
    if a != [] {
      assert (a + b)[1..] == a[1..] + b;
      WithoutIdDistributes(a[1..], b, id);
    } else {
      assert a + b == b;
    }
  }

  /** A list without the id is left exactly as it was. */
  lemma {:induction false} WithoutAbsentIdIsIdentity(tabs: seq<Tab>, id: nat)
    requires forall t :: t in tabs ==> t.id != id
    ensures WithoutId(tabs, id) == tabs
  {
    if tabs != [] {
      WithoutAbsentIdIsIdentity(tabs[1..], id);
      assert [tabs[0]] + tabs[1..] == tabs;
    }
  }

  /** Closing the same id twice removes nothing more. */
  lemma WithoutIdIdempotent(tabs: seq<Tab>, id: nat)
    ensures WithoutId(WithoutId(tabs, id), id) == WithoutId(tabs, id)
  {
    WithoutAbsentIdIsIdentity(WithoutId(tabs, id), id);
  }

  /** Number of tabs carrying the id. */
  function CountId(tabs: seq<Tab>, id: nat): nat
  {
    if tabs == [] then 0 else (if tabs[0].id == id then 1 else 0) + CountId(tabs[1..], id)
  }

  /** Exactly the tabs with the id are removed. */
  lemma {:induction false} WithoutIdRemovesCount(tabs: seq<Tab>, id: nat)
    ensures |WithoutId(tabs, id)| == |tabs| - CountId(tabs, id)
  {
    if tabs != [] {
      WithoutIdRemovesCount(tabs[1..], id);
    }
  }
}
