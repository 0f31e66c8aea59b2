/**
 * The Power Control home-screen widget (PowerControlWidget in components/Widgets.tsx):
 * five on/off switches (wifi, bluetooth, gps, sync, brightness) that a tap flips.
 */
module PowerControl {

  /** The switches the widget starts with: wifi, gps and brightness on. */
  const InitialToggles: seq<bool> := [true, false, true, false, true]

  /** The array after `toggle(i)`: entry i negated, every other entry kept. */
  function Flip(s: seq<bool>, i: nat): (r: seq<bool>)
    requires i < |s|
    ensures |r| == |s| && r[i] == !s[i]
    ensures forall j :: 0 <= j < |s| && j != i ==> r[j] == s[j]
  {
    s[i := !s[i]]
  }

  /** The number of switches that are on. */
  function CountOn(s: seq<bool>): nat
  {
    if s == [] then 0 else (if s[0] then 1 else 0) + CountOn(s[1..])
  }

  /** Flipping a switch twice restores the widget. */
  lemma FlipTwice(s: seq<bool>, i: nat)
    requires i < |s|
    ensures Flip(Flip(s, i), i) == s
  {
  }

  /** A tap turns exactly one switch on or off. */
  lemma {:induction false} FlipCount(s: seq<bool>, i: nat)
    requires i < |s|
    ensures CountOn(Flip(s, i)) == if s[i] then CountOn(s) - 1 else CountOn(s) + 1
  {
    if i > 0 {
      assert Flip(s, i)[1..] == Flip(s[1..], i - 1);
      FlipCount(s[1..], i - 1);
    } else {
      assert Flip(s, i)[1..] == s[1..];
    }
  }

  class PowerControlWidget {
    var toggles: seq<bool>

    ghost predicate Valid()
      reads this
    {
      |toggles| == |InitialToggles|
    }

    constructor ()
      ensures Valid() && toggles == InitialToggles
    {
      toggles := InitialToggles;
    }

    /** toggle(i): copies the array, negates entry i of the copy and stores the copy. */
    method Toggle(i: nat)
      requires Valid() && i < |toggles|
      modifies this
      ensures Valid()
      ensures toggles == Flip(old(toggles), i)
    {
      var copy := new bool[|toggles|];
      forall j | 0 <= j < copy.Length {
        copy[j] := toggles[j];
      }
      copy[i] := !copy[i];
      toggles := copy[..];
    }
  }
}
