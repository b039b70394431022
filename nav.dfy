/** The sidebar: `.bm-sidebar .nav-link` anchors in document order, each with an optional
    `data-view` attribute and the `active` class on or off. */
module Nav {
  import opened Wrappers

  datatype NavLink = NavLink(view: Option<string>, active: bool)

  /** Link `i` is the one `querySelector('.bm-sidebar .nav-link[data-view="v"]')` returns:
      the first link in document order whose `data-view` is `v`. */
  predicate IsFirstWith(links: seq<NavLink>, v: string, i: int) {
    0 <= i < |links| && links[i].view == Some(v)
    && forall j :: 0 <= j < i ==> links[j].view != Some(v)
  }

  /** Every link with `active` removed. */
  function Cleared(links: seq<NavLink>): (r: seq<NavLink>)
    ensures |r| == |links|
    ensures forall i :: 0 <= i < |r| ==> r[i] == links[i].(active := false)
  {
    if links == [] then [] else [links[0].(active := false)] + Cleared(links[1..])
  }

  /** The sidebar after `setActiveLink(v)`: no link keeps `active` except the first one whose
      `data-view` is `v`, which gains it; the links themselves and their order are unchanged. */
  function Highlighted(links: seq<NavLink>, v: string): (r: seq<NavLink>)
    ensures |r| == |links|
    ensures forall i :: 0 <= i < |r| ==> r[i].view == links[i].view
    ensures forall i :: 0 <= i < |r| ==> (r[i].active <==> IsFirstWith(links, v, i))
  {
    if links == [] then []
    else if links[0].view == Some(v) then
      var rest := Cleared(links[1..]);
      var r := [links[0].(active := true)] + rest;
      forall i | 1 <= i < |links| ensures !r[i].active && !IsFirstWith(links, v, i) {
        assert r[i] == rest[i - 1];
      }
      r
    else
      var rest := Highlighted(links[1..], v);
      var r := [links[0].(active := false)] + rest;
      forall i | 1 <= i < |links| ensures r[i].active <==> IsFirstWith(links, v, i) {
        assert r[i] == rest[i - 1];
        FirstWithTail(links, v, i);
      }
      r
  }

  /** When the first link does not carry `v`, the first link carrying it is found among the
      rest, one position further on. */
  lemma FirstWithTail(links: seq<NavLink>, v: string, i: int)
    requires 1 <= i < |links| && links[0].view != Some(v)
    ensures IsFirstWith(links, v, i) <==> IsFirstWith(links[1..], v, i - 1)
  {
    if IsFirstWith(links[1..], v, i - 1) {
      forall j | 0 <= j < i ensures links[j].view != Some(v) {
        if j > 0 { assert links[j] == links[1..][j - 1]; }
      }
    }
    if IsFirstWith(links, v, i) {
      forall j | 0 <= j < i - 1 ensures links[1..][j].view != Some(v) {
        assert links[1..][j] == links[j + 1];
      }
    }
  }

  /** At most one link is active after highlighting, and one is exactly when some link carries
      the view. */
  lemma {:induction false} HighlightedSingle(links: seq<NavLink>, v: string)
    ensures forall i, j :: 0 <= i < j < |links| ==>
      !(Highlighted(links, v)[i].active && Highlighted(links, v)[j].active)
    ensures (exists i :: 0 <= i < |links| && Highlighted(links, v)[i].active)
      <==> (exists i :: 0 <= i < |links| && links[i].view == Some(v))
  {
    var r := Highlighted(links, v);
    if i :| 0 <= i < |links| && links[i].view == Some(v) {
      var k := FirstWith(links, v, i);
      assert r[k].active;
    }
  }

  /** The first link carrying `v`, given that link `i` carries it. */
  ghost function FirstWith(links: seq<NavLink>, v: string, i: int): (k: int)
    requires 0 <= i < |links| && links[i].view == Some(v)
    ensures k <= i && IsFirstWith(links, v, k)
    decreases i
  {
    if exists j :: 0 <= j < i && links[j].view == Some(v) then
      var j :| 0 <= j < i && links[j].view == Some(v);
      FirstWith(links, v, j)
    else i
  }

  /** Highlighting the same view twice is the same as highlighting it once: the start-up
      sequence, which highlights the initial view before loading it, ends in the same sidebar
      whether or not the load highlights it again. */
  lemma HighlightedIdempotent(links: seq<NavLink>, v: string)
    ensures Highlighted(Highlighted(links, v), v) == Highlighted(links, v)
  {
    var r := Highlighted(links, v);
    var rr := Highlighted(r, v);
    forall i | 0 <= i < |links| ensures rr[i] == r[i] {
      assert IsFirstWith(r, v, i) <==> IsFirstWith(links, v, i);
    }
  }
}
