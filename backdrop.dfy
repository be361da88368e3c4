/**
 * The backdrop selector (Assets/Scripts/UI/Backdrop.cs): a list of
 * background objects, of which the one at the current index is shown;
 * Next and Prev step the index cyclically.
 *
 * A background is an object with an active flag; the serialized list may
 * hold null entries and may name one object twice, as a List<GameObject>
 * can. Indexing out of range and calling SetActive on a null entry throw;
 * a method then stops where it was and reports `thrown`.
 */
module Backdrops {

  /** The index after Next: one up, back to 0 past the end. */
  function NextIndex(i: int, count: int): (r: int)
    ensures 0 <= i < count ==> 0 <= r < count && r == (i + 1) % count
  {
    if i + 1 >= count then 0 else i + 1
  }

  /** The index after Prev: one down, to the last entry below 0. */
  function PrevIndex(i: int, count: int): (r: int)
    ensures 0 <= i < count ==> 0 <= r < count && r == (i - 1 + count) % count
  {
    if i - 1 < 0 then count - 1 else i - 1
  }

  /** Prev undoes Next, and Next undoes Prev, on every index of the list. */
  lemma StepsRoundTrip(i: int, count: int)
    requires 0 <= i < count
    ensures PrevIndex(NextIndex(i, count), count) == i
    ensures NextIndex(PrevIndex(i, count), count) == i
  {
  }

  class GameObject {
    var active: bool

    constructor (active: bool)
      ensures this.active == active
    {
      this.active := active;
    }
  }

  /** No object appears at two positions of the list. */
  predicate Unaliased(objects: seq<GameObject?>)
  {
    forall i, j :: 0 <= i < |objects| && 0 <= j < |objects| && i != j && objects[i] != null ==> objects[i] != objects[j]
  }

  class Backdrop {
    const backgrounds: seq<GameObject?>
    var currentIndex: int

    /** The serialized list, with the index at its field initializer 0. */
    constructor (backgrounds: seq<GameObject?>)
      ensures this.backgrounds == backgrounds && currentIndex == 0
    {
      this.backgrounds := backgrounds;
      currentIndex := 0;
    }

    /** The non-null backgrounds. */
    function Objects(): set<GameObject>
    {
      set o: GameObject | o in backgrounds
    }

    /** Position `i` is a valid index holding an object. */
    predicate Holds(i: int)
    {
      0 <= i < |backgrounds| && backgrounds[i] != null
    }

    /**
     * Of the backgrounds only the one at `k` is active (none at all when `k`
     * holds no object).
     */
    predicate OnlyActive(k: int)
      reads Objects()
    {
      forall j :: 0 <= j < |backgrounds| && backgrounds[j] != null ==> (backgrounds[j].active <==> j == k)
    }

    /**
     * The effect of one step from `from` to `to`: the object at `from` is
     * switched off, then the one at `to` switched on unless it is null (which
     * throws); no other background changes.
     */
    twostate predicate Moved(from: int, to: int, thrown: bool)
      reads this, Objects()
      requires Holds(from) && 0 <= to < |backgrounds|
    {
      && currentIndex == to
      && thrown == (backgrounds[to] == null)
      && (!thrown ==> backgrounds[to].active)
      && (backgrounds[from] != backgrounds[to] || thrown ==> !backgrounds[from].active)
      && forall o :: o in Objects() && o != backgrounds[from] && o != backgrounds[to] ==> o.active == old(o.active)
    }

    /**
     * Awake: every non-null background is switched off, then the first one
     * switched on (a null first entry throws). The index is not touched.
     */
    method Awake() returns (thrown: bool)
      modifies Objects()
      ensures currentIndex == old(currentIndex)
      ensures thrown <==> |backgrounds| > 0 && backgrounds[0] == null
      ensures forall j :: 0 <= j < |backgrounds| && backgrounds[j] != null ==>
        backgrounds[j].active == (backgrounds[j] == backgrounds[0])
      ensures Unaliased(backgrounds) ==> OnlyActive(0)
    {
      for i := 0 to |backgrounds|
        invariant forall j :: 0 <= j < i && backgrounds[j] != null ==> !backgrounds[j].active
      {
        if backgrounds[i] != null {
          backgrounds[i].active := false;
        }
      }
      thrown := false;
      if |backgrounds| > 0 {
        if backgrounds[0] == null {
          return true;
        }
        backgrounds[0].active := true;
      }
    }

    /**
     * Next: throws, changing nothing, when the current index holds no object;
     * otherwise moves to NextIndex.
     */
    method Next() returns (thrown: bool)
      modifies this, Objects()
      ensures !old(Holds(currentIndex)) ==> thrown && currentIndex == old(currentIndex) && unchanged(Objects())
      ensures old(Holds(currentIndex)) ==>
        var to := NextIndex(old(currentIndex), |backgrounds|);
        0 <= to < |backgrounds| && Moved(old(currentIndex), to, thrown)
      ensures Unaliased(backgrounds) && old(Holds(currentIndex) && OnlyActive(currentIndex)) && !thrown ==>
        OnlyActive(currentIndex)
    {
      if !Holds(currentIndex) {
        return true;
      }
      backgrounds[currentIndex].active := false;
      currentIndex := currentIndex + 1;
      if currentIndex >= |backgrounds| {
        currentIndex := 0;
      }
      thrown := backgrounds[currentIndex] == null;
      if !thrown {
        backgrounds[currentIndex].active := true;
      }
    }

    /**
     * Prev: throws, changing nothing, when the current index holds no object;
     * otherwise moves to PrevIndex.
     */
    method Prev() returns (thrown: bool)
      modifies this, Objects()
      ensures !old(Holds(currentIndex)) ==> thrown && currentIndex == old(currentIndex) && unchanged(Objects())
      ensures old(Holds(currentIndex)) ==>
        var to := PrevIndex(old(currentIndex), |backgrounds|);
        0 <= to < |backgrounds| && Moved(old(currentIndex), to, thrown)
      ensures Unaliased(backgrounds) && old(Holds(currentIndex) && OnlyActive(currentIndex)) && !thrown ==>
        OnlyActive(currentIndex)
    {
      if !Holds(currentIndex) {
        return true;
      }
      backgrounds[currentIndex].active := false;
      currentIndex := currentIndex - 1;
      if currentIndex < 0 {
        currentIndex := |backgrounds| - 1;
      }
      thrown := backgrounds[currentIndex] == null;
      if !thrown {
        backgrounds[currentIndex].active := true;
      }
    }
  }
}
