/**
 * Pass 1 of `save_book_as_pdf`: from the draft's per-page anchor sets, find
 * the first page that carries a ToC anchor and number every anchor from
 * there, 1-based, keeping the page where it first appears.
 */
module PageMap {
  import opened Wrappers
  import opened Toc

  const NoContentStart: string :=
    "Could not find the start of the main " +
    "content to calculate page numbers."

  /** any(anchor in target_anchors for anchor in page.anchors) */
  predicate HasTarget(anchors: set<string>, targets: set<string>) {
    exists a :: a in anchors && a in targets
  }

  /** The least page index at or after p with a target anchor, or -1. */
  function FirstHitFrom(pages: seq<set<string>>, targets: set<string>, p: nat): (r: int)
    requires p <= |pages|
    ensures r == -1 || p <= r < |pages|
    ensures r == -1 <==> forall q :: p <= q < |pages| ==> !HasTarget(pages[q], targets)
    ensures r >= 0 ==> HasTarget(pages[r], targets) && forall q :: p <= q < r ==> !HasTarget(pages[q], targets)
    decreases |pages| - p
  {
    if p == |pages| then -1
    else if HasTarget(pages[p], targets) then p
    else FirstHitFrom(pages, targets, p + 1)
  }

  function FirstHit(pages: seq<set<string>>, targets: set<string>): int {
    FirstHitFrom(pages, targets, 0)
  }

  /** One page's worth of the inner loop: new target anchors get number n. */
  function NewAnchors(m: map<string, int>, anchors: set<string>, targets: set<string>, n: int): map<string, int> {
    m + map a | a in anchors && a in targets && Href(a) !in m :: Href(a) := n
  }

  /** page_map after the outer loop has seen pages 0 .. p-1. */
  function PageMapUpTo(pages: seq<set<string>>, targets: set<string>, first: nat, p: nat): map<string, int>
    requires p <= |pages|
  {
    if p == 0 then map[]
    else
      var m := PageMapUpTo(pages, targets, first, p - 1);
      if p - 1 >= first then NewAnchors(m, pages[p - 1], targets, (p - 1 - first) + 1) else m
  }

  /** The whole of pass 1: the RuntimeError, or the page map. */
  function Resolve(pages: seq<set<string>>, targets: set<string>): Result<map<string, int>, string> {
    var first := FirstHit(pages, targets);
    if first == -1 then Failure(NoContentStart) else Success(PageMapUpTo(pages, targets, first, |pages|))
  }

  // ---------------------------------------------------------------------
  // The loops of lines 152-170

  method FindFirstContentPage(pages: seq<set<string>>, targets: set<string>) returns (first: int)
    ensures first == FirstHit(pages, targets)
    ensures first == -1 <==> forall p :: 0 <= p < |pages| ==> !HasTarget(pages[p], targets)
    ensures first != -1 ==> 0 <= first < |pages| && HasTarget(pages[first], targets)
                            && forall p :: 0 <= p < first ==> !HasTarget(pages[p], targets)
  {
    first := -1;
    var p := 0;
    while p < |pages|
      invariant 0 <= p <= |pages|
      invariant first == -1
      invariant forall q :: 0 <= q < p ==> !HasTarget(pages[q], targets)
    {
      if HasTarget(pages[p], targets) {
        first := p;
        break;
      }
      p := p + 1;
    }
  }

  lemma NewAnchorsStep(m: map<string, int>, done: set<string>, a: string, targets: set<string>, n: int)
    requires a !in done
    ensures var before := NewAnchors(m, done, targets, n);
      NewAnchors(m, done + {a}, targets, n)
      == if a in targets && Href(a) !in before then before[Href(a) := n] else before
  {
    var before := NewAnchors(m, done, targets, n);
    var after := NewAnchors(m, done + {a}, targets, n);
    NewAnchorsPointwise(m, done, a, targets, n);
    if a in targets && Href(a) !in before {
      var expected := before[Href(a) := n];
      assert after.Keys == expected.Keys;
      assert after == expected;
    } else {
      assert after.Keys == before.Keys;
      assert after == before;
    }
  }

  /** NewAnchorsStep, key by key. */
  lemma NewAnchorsPointwise(m: map<string, int>, done: set<string>, a: string, targets: set<string>, n: int)
    requires a !in done
    ensures var before := NewAnchors(m, done, targets, n);
      var after := NewAnchors(m, done + {a}, targets, n);
      var expected := if a in targets && Href(a) !in before then before[Href(a) := n] else before;
      forall h :: (h in after <==> h in expected) && (h in after ==> after[h] == expected[h])
  {
    var before := NewAnchors(m, done, targets, n);
    var after := NewAnchors(m, done + {a}, targets, n);
    var expected := if a in targets && Href(a) !in before then before[Href(a) := n] else before;
    forall h ensures (h in after <==> h in expected) && (h in after ==> after[h] == expected[h]) {
      if h in m {
      } else if |h| >= 1 && h[0] == '#' && h == Href(h[1..]) {
        var b := h[1..];
        HrefInjective(b);
      } else {
        forall c ensures Href(c) != h {
          HrefInjective(c);
        }
      }
    }
  }

  lemma HrefInjective(a: string)
    ensures forall b :: Href(b) == Href(a) ==> b == a
  {
    forall b | Href(b) == Href(a) ensures b == a {
      assert b == Href(b)[1..] == Href(a)[1..] == a;
    }
  }

  method BuildPageMap(pages: seq<set<string>>, targets: set<string>, first: nat) returns (pageMap: map<string, int>)
    ensures pageMap == PageMapUpTo(pages, targets, first, |pages|)
  {
    pageMap := map[];
    var p := 0;
    while p < |pages|
      invariant 0 <= p <= |pages|
      invariant pageMap == PageMapUpTo(pages, targets, first, p)
    {
      if p >= first {
        var realPageNumber := (p - first) + 1;
        var rest := pages[p];
        ghost var m0 := pageMap;
        while rest != {}
          invariant rest <= pages[p]
          invariant pageMap == NewAnchors(m0, pages[p] - rest, targets, realPageNumber)
          decreases |rest|
        {
          var anchorName :| anchorName in rest;
          var href := Href(anchorName);
          NewAnchorsStep(m0, pages[p] - rest, anchorName, targets, realPageNumber);
          if anchorName in targets && href !in pageMap {
            pageMap := pageMap[href := realPageNumber];
          }
          assert pages[p] - (rest - {anchorName}) == (pages[p] - rest) + {anchorName};
          rest := rest - {anchorName};
        }
        assert pages[p] - rest == pages[p];
      }
      p := p + 1;
    }
  }

  method ResolvePageMap(pages: seq<set<string>>, targets: set<string>) returns (r: Result<map<string, int>, string>)
    ensures r == Resolve(pages, targets)
    ensures r.Failure? <==> forall p :: 0 <= p < |pages| ==> !HasTarget(pages[p], targets)
    ensures r.Failure? ==> r.error == NoContentStart
  {
    var first := FindFirstContentPage(pages, targets);
    if first == -1 {
      return Failure(NoContentStart);
    }
    var pageMap := BuildPageMap(pages, targets, first);
    r := Success(pageMap);
  }

  // ---------------------------------------------------------------------
  // What the page map holds

  /** Every key is "#" + a target anchor seen on a page from `first` on, numbered within range. */
  lemma {:induction false} PageMapKeys(pages: seq<set<string>>, targets: set<string>, first: nat, p: nat, h: string)
    requires p <= |pages|
    requires h in PageMapUpTo(pages, targets, first, p)
    ensures |h| >= 1 && h[0] == '#' && h[1..] in targets
    ensures 1 <= PageMapUpTo(pages, targets, first, p)[h] <= p - first
    ensures exists q :: first <= q < p && h[1..] in pages[q]
  {
    var m := PageMapUpTo(pages, targets, first, p - 1);
    if h in m {
      PageMapKeys(pages, targets, first, p - 1, h);
    } else {
      var a :| a in pages[p - 1] && a in targets && Href(a) !in m && Href(a) == h;
      assert h[1..] == a;
    }
  }

  /** A target anchor seen on a page from `first` on has a key. */
  lemma {:induction false} PageMapContains(pages: seq<set<string>>, targets: set<string>, first: nat, p: nat, a: string, q: nat)
    requires first <= q < p <= |pages|
    requires a in targets && a in pages[q]
    ensures Href(a) in PageMapUpTo(pages, targets, first, p)
  {
    if q < p - 1 {
      PageMapContains(pages, targets, first, p - 1, a, q);
    }
  }

  /** An anchor is numbered by the earliest page from `first` on where it appears. */
  lemma {:induction false} PageMapFirstOccurrence(pages: seq<set<string>>, targets: set<string>, first: nat, p: nat, a: string, q: nat)
    requires first <= q < p <= |pages|
    requires a in targets && a in pages[q]
    requires forall j :: first <= j < q ==> a !in pages[j]
    ensures Href(a) in PageMapUpTo(pages, targets, first, p)
    ensures PageMapUpTo(pages, targets, first, p)[Href(a)] == (q - first) + 1
  {
    var m := PageMapUpTo(pages, targets, first, p - 1);
    if q < p - 1 {
      PageMapFirstOccurrence(pages, targets, first, p - 1, a, q);
    } else if Href(a) in m {
      PageMapKeys(pages, targets, first, p - 1, Href(a));
      assert false;
    }
  }

  /** The contract of pass 1, stated on its specification. */
  lemma ResolveProperties(pages: seq<set<string>>, targets: set<string>)
    ensures Resolve(pages, targets).Failure? <==> forall p :: 0 <= p < |pages| ==> !HasTarget(pages[p], targets)
    ensures var r := Resolve(pages, targets); var first := FirstHit(pages, targets);
      r.Success? ==>
        && 0 <= first < |pages|
        && HasTarget(pages[first], targets)
        && (forall p :: 0 <= p < first ==> !HasTarget(pages[p], targets))
        && (forall h :: h in r.value ==>
              |h| >= 1 && h[0] == '#' && h[1..] in targets && 1 <= r.value[h] <= |pages| - first)
        && (forall a :: a in pages[first] && a in targets ==> Href(a) in r.value && r.value[Href(a)] == 1)
        && (forall a, q :: 0 <= q < |pages| && a in targets && a in pages[q]
              && (forall j :: 0 <= j < q ==> a !in pages[j])
              ==> Href(a) in r.value && r.value[Href(a)] == (q - first) + 1)
  {
    var r := Resolve(pages, targets);
    var first := FirstHit(pages, targets);
    if r.Success? {
      var m := r.value;
      forall h | h in m
        ensures |h| >= 1 && h[0] == '#' && h[1..] in targets && 1 <= m[h] <= |pages| - first
      {
        PageMapKeys(pages, targets, first, |pages|, h);
      }
      forall a | a in pages[first] && a in targets ensures Href(a) in m && m[Href(a)] == 1 {
        PageMapFirstOccurrence(pages, targets, first, |pages|, a, first);
      }
      forall a, q | 0 <= q < |pages| && a in targets && a in pages[q] && (forall j :: 0 <= j < q ==> a !in pages[j])
        ensures Href(a) in m && m[Href(a)] == (q - first) + 1
      {
        if q < first {
          assert HasTarget(pages[q], targets);
        }
        PageMapFirstOccurrence(pages, targets, first, |pages|, a, q);
      }
    }
  }

  // ---------------------------------------------------------------------
  // Pass 1 when each target is known to appear first on a given page

  /** With no targets at all, pass 1 raises. */
  lemma ResolveNoTargets(pages: seq<set<string>>)
    ensures Resolve(pages, {}).Failure?
  {
    ResolveProperties(pages, {});
  }

  /**
   * If target ids[j] first appears on page pos[j], and pos[0] is the
   * smallest of these, numbering starts at pos[0] and ids[j] gets
   * pos[j] - pos[0] + 1.
   */
  lemma ResolveFromAnchorPages(pages: seq<set<string>>, targets: set<string>, ids: seq<string>, pos: seq<nat>)
    requires |ids| == |pos| > 0
    requires targets == set j | 0 <= j < |ids| :: ids[j]
    requires forall j :: 0 <= j < |ids| ==> pos[j] < |pages| && ids[j] in pages[pos[j]]
    requires forall j, i :: 0 <= j < |ids| && 0 <= i < pos[j] ==> ids[j] !in pages[i]
    requires forall j :: 0 <= j < |ids| ==> pos[0] <= pos[j]
    ensures FirstHit(pages, targets) == pos[0]
    ensures Resolve(pages, targets).Success?
    ensures Resolve(pages, targets).value.Keys == set j | 0 <= j < |ids| :: Href(ids[j])
    ensures forall j :: 0 <= j < |ids| ==> Resolve(pages, targets).value[Href(ids[j])] == pos[j] - pos[0] + 1
  {
    FirstHitAtAnchorPage(pages, targets, ids, pos);
    var first := pos[0];
    var m := PageMapUpTo(pages, targets, first, |pages|);
    assert Resolve(pages, targets) == Success(m);
    forall j | 0 <= j < |ids| ensures Href(ids[j]) in m && m[Href(ids[j])] == pos[j] - first + 1 {
      assert ids[j] in targets;
      PageMapFirstOccurrence(pages, targets, first, |pages|, ids[j], pos[j]);
    }
    var keys := set j | 0 <= j < |ids| :: Href(ids[j]);
    forall h | h in m ensures h in keys {
      PageMapKeys(pages, targets, first, |pages|, h);
      var j :| 0 <= j < |ids| && ids[j] == h[1..];
      assert h == Href(ids[j]);
    }
    assert m.Keys == keys;
  }

  lemma FirstHitAtAnchorPage(pages: seq<set<string>>, targets: set<string>, ids: seq<string>, pos: seq<nat>)
    requires |ids| == |pos| > 0
    requires targets == set j | 0 <= j < |ids| :: ids[j]
    requires forall j :: 0 <= j < |ids| ==> pos[j] < |pages| && ids[j] in pages[pos[j]]
    requires forall j, i :: 0 <= j < |ids| && 0 <= i < pos[j] ==> ids[j] !in pages[i]
    requires forall j :: 0 <= j < |ids| ==> pos[0] <= pos[j]
    ensures FirstHit(pages, targets) == pos[0]
  {
    var first := FirstHit(pages, targets);
    assert HasTarget(pages[pos[0]], targets) by {
      assert ids[0] in pages[pos[0]] && ids[0] in targets;
    }
  }
}
