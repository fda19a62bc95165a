/**
 * The selection tracker: the `selectedSpeakers` Set of the controller.
 * A JavaScript Set holds each value once and iterates in insertion order,
 * and that order is what `Array.from` hands to the group request, so a
 * selection is modelled as a duplicate-free sequence in insertion order.
 */
module Selection {

  /** No name occurs twice. */
  predicate Distinct(s: seq<string>) {
    forall i, j :: 0 <= i < j < |s| ==> s[i] != s[j]
  }

  /** A name in front of a selection keeps it duplicate-free exactly when the name is new to it. */
  lemma DistinctCons(a: string, d: seq<string>)
    ensures Distinct([a] + d) <==> a !in d && Distinct(d)
  {
    if a !in d && Distinct(d) {
      forall i, j | 0 <= i < j < |[a] + d| ensures ([a] + d)[i] != ([a] + d)[j] {
        assert ([a] + d)[j] == d[j - 1];
      }
    }
    if Distinct([a] + d) {
      forall i, j | 0 <= i < j < |d| ensures d[i] != d[j] {
        assert d[i] == ([a] + d)[i + 1] && d[j] == ([a] + d)[j + 1];
      }
      forall k | 0 <= k < |d| ensures d[k] != a {
        assert d[k] == ([a] + d)[k + 1] && a == ([a] + d)[0];
      }
    }
  }

  /** `Set.prototype.delete`: drop `x`, keeping the other names in order. */
  function Delete(s: seq<string>, x: string): (r: seq<string>)
    ensures forall y :: y in r <==> y in s && y != x
    ensures Distinct(s) ==> Distinct(r)
    ensures x !in s ==> r == s
  {
    if s == [] then []
    else if s[0] == x then Delete(s[1..], x)
    else
      DistinctCons(s[0], s[1..]);
      DistinctCons(s[0], Delete(s[1..], x));
      [s[0]] + Delete(s[1..], x)
  }

  /** Deleting a name that sits at index `i` of a selection closes the gap there. */
  lemma {:induction false} DeleteAt(s: seq<string>, i: nat)
    requires Distinct(s) && i < |s|
    ensures Delete(s, s[i]) == s[..i] + s[i + 1..]
  {
    if i == 0 {
      assert s[0] !in s[1..];
    } else {
      assert s[1..][i - 1] == s[i];
      DeleteAt(s[1..], i - 1);
      assert s[..i] == [s[0]] + s[1..][..i - 1];
      assert s[i + 1..] == s[1..][i..];
    }
  }

  /** Deleting a name that was just appended gives back the selection before the append. */
  lemma {:induction false} DeleteAppended(s: seq<string>, x: string)
    requires x !in s
    ensures Delete(s + [x], x) == s
  {
    if s != [] {
      assert (s + [x])[1..] == s[1..] + [x];
      DeleteAppended(s[1..], x);
    }
  }

  /** `toggleSpeakerSelection`: delete the name when present, add it at the end otherwise. */
  function Toggle(s: seq<string>, x: string): (r: seq<string>)
    ensures x in r <==> x !in s
    ensures forall y :: y != x ==> (y in r <==> y in s)
    ensures Distinct(s) ==> Distinct(r)
  {
    if x in s then Delete(s, x) else s + [x]
  }

  /** Toggling a name twice restores which names are selected. */
  lemma ToggleTwiceRestoresMembers(s: seq<string>, x: string)
    ensures forall y :: y in Toggle(Toggle(s, x), x) <==> y in s
  {
  }

  /**
   * Toggling a name twice restores the selection exactly, order included,
   * only when the name was absent or was the most recently added one: a
   * re-added name goes to the end of the insertion order.
   */
  lemma {:induction false} ToggleTwiceRestoresOrder(s: seq<string>, x: string)
    requires Distinct(s)
    ensures Toggle(Toggle(s, x), x) == s <==> x !in s || s[|s| - 1] == x
    ensures x in s ==> Toggle(Toggle(s, x), x) == Delete(s, x) + [x]
  {
    if x !in s {
      DeleteAppended(s, x);
    } else {
      var i :| 0 <= i < |s| && s[i] == x;
      DeleteAt(s, i);
      var d := s[..i] + s[i + 1..];
      assert Toggle(Toggle(s, x), x) == d + [x];
      if i == |s| - 1 {
        assert d + [x] == s;
      } else {
        assert (d + [x])[i] == s[i + 1] != s[i];
        assert s[|s| - 1] != x;
      }
    }
  }
}
