/**
  Page lists that carry their length.
 */
module PageLists {

  type Page = nat

  datatype L = L(items: seq<Page>, len: int)

  const NIL := L([], 0)

  /** The length field says what the list holds. */
  predicate Exact(l: L) {
    l.len == |l.items|
  }

  function Pushed(l: L, p: Page): L {
    L(l.items + [p], l.len + 1)
  }

  function Popped(l: L): L
    requires l.items != []
  {
    L(l.items[1..], l.len - 1)
  }

  function Spliced(l: L, t: L): L {
    L(l.items + t.items, l.len + t.len)
  }

  datatype Cut = Cut(rest: L, cut: L)

  /** Cutting replaces what `dest` held; draining appends to it but takes over the length alone. */
  function CutOff(l: L, count: int, dest: L): Cut
    requires l.len <= |l.items|
  {
    if count <= 0 then Cut(l, dest)
    else if count >= l.len then Cut(NIL, L(dest.items + l.items, l.len))
    else Cut(L(l.items[count..], l.len - count), L(l.items[..count], dest.len + count))
  }

  /** A cut keeps every page and both lengths exactly when it goes to an empty list. */
  lemma CutKeepsIff(l: L, count: int, dest: L)
    requires Exact(l) && Exact(dest) && count > 0
    ensures var c := CutOff(l, count, dest);
            && Exact(c.rest)
            && (Exact(c.cut) && multiset(c.rest.items) + multiset(c.cut.items) == multiset(l.items) + multiset(dest.items)
                <==> dest.items == [])
  {
    var c := CutOff(l, count, dest);
    if count >= l.len {
      assert multiset(dest.items + l.items) == multiset(dest.items) + multiset(l.items);
    } else {
      assert l.items == l.items[..count] + l.items[count..];
      assert multiset(c.rest.items) + multiset(c.cut.items) == multiset(l.items);
      assert |multiset(l.items) + multiset(dest.items)| == |l.items| + |dest.items|;
    }
  }

  class PageList {
    var items: seq<Page>
    var len: int

    function View(): L
      reads this
    {
      L(items, len)
    }

    constructor ()
      ensures View() == NIL
    {
      items, len := [], 0;
    }

    method AddTail(p: Page)
      modifies this
      ensures View() == Pushed(old(View()), p)
    {
      items := items + [p];
      len := len + 1;
    }

    method PopHead() returns (p: Page)
      requires items != []
      modifies this
      ensures p == old(items)[0] && View() == Popped(old(View()))
    {
      p := items[0];
      items := items[1..];
      len := len - 1;
    }

    /** The pages stay linked to the list they came from, which is not used again. */
    method SpliceTail(add: PageList)
      requires add != this
      modifies this, add
      ensures View() == Spliced(old(View()), old(add.View())) && add.len == 0
    {
      items := items + add.items;
      len := len + add.len;
      add.len := 0;
    }

    method Drain(dest: PageList)
      requires dest != this
      modifies this, dest
      ensures View() == NIL && dest.View() == L(old(dest.items) + old(items), old(len))
    {
      dest.items := dest.items + items;
      items := [];
      dest.len := len;
      len := 0;
    }

    method CutCount(count: int, dest: PageList)
      requires dest != this && Exact(View())
      modifies this, dest
      ensures var c := CutOff(old(View()), count, old(dest.View())); View() == c.rest && dest.View() == c.cut
    {
      if count <= 0 {
        return;
      } else if count >= len {
        Drain(dest);
        return;
      }
      var pos, cnt := 0, 1;
      while cnt < count
        invariant cnt <= count && pos == cnt - 1
      {
        pos := pos + 1;
        cnt := cnt + 1;
      }
      dest.items, items := items[..pos + 1], items[pos + 1..];
      len := len - count;
      dest.len := dest.len + count;
    }
  }
}
