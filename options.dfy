/** Lists built by keeping the set slots of a sequence of optional values:
    the shape of Python's "append when present" code and of comprehensions
    with an `if` filter. */
module Options {
  import opened Common

  /** One slot's value appended to what the earlier slots gave. */
  function Emit<T>(acc: seq<T>, x: Option<T>): seq<T> {
    if x.Some? then acc + [x.value] else acc
  }

  /** The values of the slots that are set, in slot order: a list built by
      conditional appends, or a comprehension with an `if` filter. */
  function Present<T>(slots: seq<Option<T>>): seq<T> {
    if slots == [] then [] else Emit(Present(slots[..|slots| - 1]), slots[|slots| - 1])
  }

  lemma PresentSnoc<T>(slots: seq<Option<T>>, x: Option<T>)
    ensures Present(slots + [x]) == Emit(Present(slots), x)
  {
    assert (slots + [x])[..|slots|] == slots;
  }

  lemma {:induction false} PresentAppend<T>(a: seq<Option<T>>, b: seq<Option<T>>)
    ensures Present(a + b) == Present(a) + Present(b)
    decreases |b|
  {
    if b != [] {
      var b' := b[..|b| - 1];
      assert a + b == (a + b') + [b[|b| - 1]];
      PresentSnoc(a + b', b[|b| - 1]);
      PresentAppend(a, b');
    } else {
      assert a + b == a;
    }
  }

  /** A value is kept iff some slot holds it. */
  lemma {:induction false} PresentMember<T>(slots: seq<Option<T>>, x: T)
    ensures x in Present(slots) <==> Some(x) in slots
  {
    if slots != [] {
      var init := slots[..|slots| - 1];
      PresentMember(init, x);
      assert slots == init + [slots[|slots| - 1]];
    }
  }

  /** The number of kept values is the number of set slots: an unset slot
      contributes nothing and a set one exactly one value. */
  lemma {:induction false} PresentCount<T>(slots: seq<Option<T>>)
    ensures |Present(slots)| == |set k | 0 <= k < |slots| && slots[k].Some?|
  {
    if slots != [] {
      var n := |slots| - 1;
      var init := slots[..n];
      PresentCount(init);
      var before := set k | 0 <= k < n && init[k].Some?;
      var after := set k | 0 <= k < |slots| && slots[k].Some?;
      assert before == set k | 0 <= k < n && slots[k].Some?;
      if slots[n].Some? {
        assert after == before + {n};
      } else {
        assert after == before;
      }
    }
  }

  /** Where slot `i`'s value lands: the number of set slots before it. */
  function Rank<T>(slots: seq<Option<T>>, i: nat): nat
    requires i <= |slots|
  {
    |Present(slots[..i])|
  }

  /** The fixed-order law: a set slot's value sits at its rank, and the
      ranks of set slots strictly increase with slot order. */
  lemma {:induction false} PresentOrder<T>(slots: seq<Option<T>>, i: nat, j: nat)
    requires i < j < |slots| && slots[i].Some?
    ensures Rank(slots, i) < |Present(slots)| && Present(slots)[Rank(slots, i)] == slots[i].value
    ensures slots[j].Some? ==> Rank(slots, i) < Rank(slots, j) < |Present(slots)|
  {
    RankAt(slots, i);
    RankMono(slots, i + 1, j);
    if slots[j].Some? {
      RankAt(slots, j);
    }
  }

  lemma {:induction false} RankAt<T>(slots: seq<Option<T>>, i: nat)
    requires i < |slots| && slots[i].Some?
    ensures Rank(slots, i) < |Present(slots)| && Present(slots)[Rank(slots, i)] == slots[i].value
    ensures Rank(slots, i + 1) == Rank(slots, i) + 1
  {
    assert slots[..i + 1] == slots[..i] + [slots[i]];
    PresentSnoc(slots[..i], slots[i]);
    assert slots == slots[..i + 1] + slots[i + 1..];
    PresentAppend(slots[..i + 1], slots[i + 1..]);
  }

  lemma {:induction false} RankMono<T>(slots: seq<Option<T>>, i: nat, j: nat)
    requires i <= j <= |slots|
    ensures Rank(slots, i) <= Rank(slots, j) <= |Present(slots)|
  {
    assert slots[..j] == slots[..i] + slots[i..j];
    PresentAppend(slots[..i], slots[i..j]);
    assert slots == slots[..j] + slots[j..];
    PresentAppend(slots[..j], slots[j..]);
  }

  lemma Step<T>(slots: seq<Option<T>>, k: nat)
    requires k < |slots|
    ensures Present(slots[..k + 1]) == Emit(Present(slots[..k]), slots[k])
  {
    assert slots[..k + 1][..k] == slots[..k];
  }

}
