/**
 * RollingWord: a headline word that rolls through a fixed list, one step
 * every four seconds, wrapping back to the first word. The interval is only
 * installed when motion is not reduced.
 */
module RollingWord {

  const WORDS: seq<string> := ["manuellt arbete", "repetitivt arbete", "det manuella", "det on\U{F6}diga"]

  /** Milliseconds between two steps. */
  const INTERVAL: nat := 4000

  /** The updater `(i) => (i + 1) % WORDS.length`. */
  function Next(i: nat): (j: nat)
    ensures j < |WORDS|
    ensures i + 1 < |WORDS| ==> j == i + 1
    ensures i + 1 == |WORDS| ==> j == 0
  {
    (i + 1) % |WORDS|
  }

  /** The index after n steps from i. */
  function Steps(i: nat, n: nat): nat {
    if n == 0 then i else Next(Steps(i, n - 1))
  }

  /** n steps from an index in range land on (i + n) mod 4. */
  lemma {:induction false} StepsWrap(i: nat, n: nat)
    requires i < |WORDS|
    ensures Steps(i, n) == (i + n) % |WORDS|
  {
    if n > 0 {
      StepsWrap(i, n - 1);
      var k := (i + n - 1) / |WORDS|;
      assert i + n - 1 == k * |WORDS| + Steps(i, n - 1);
      assert i + n == k * |WORDS| + Steps(i, n - 1) + 1;
    }
  }

  /** Starting from the first word, the first four steps show the words in array order and the fourth is back at the start. */
  lemma VisitsInOrder()
    ensures forall n :: 0 <= n < |WORDS| ==> Steps(0, n) == n
    ensures Steps(0, |WORDS|) == 0
  {
    forall n | 0 <= n <= |WORDS| ensures Steps(0, n) == n % |WORDS| {
      StepsWrap(0, n);
    }
  }

  /** Every |WORDS| steps the index returns to where it was. */
  lemma StepsPeriodic(i: nat, n: nat)
    requires i < |WORDS|
    ensures Steps(i, n + |WORDS|) == Steps(i, n)
  {
    StepsWrap(i, n);
    StepsWrap(i, n + |WORDS|);
  }

  /** What the component renders: the screen-reader label, the visible word and the key of the animated span. */
  datatype View = View(srLabel: string, word: string, key: nat)

  /**
   * The component's index state. reduced is the reduced-motion preference;
   * when it holds no interval is installed, so Tick models a tick that never
   * reaches the updater.
   */
  class Roller {
    var index: nat
    const reduced: bool
    ghost var ticks: nat

    ghost predicate Valid()
      reads this
    {
      index < |WORDS| && index == (if reduced then 0 else Steps(0, ticks))
    }

    constructor (reduced: bool)
      ensures Valid() && index == 0 && ticks == 0 && this.reduced == reduced
    {
      index := 0;
      this.reduced := reduced;
      ticks := 0;
    }

    /** One elapsed interval. */
    method Tick()
      requires Valid()
      modifies this
      ensures Valid() && ticks == old(ticks) + 1
      ensures index == if reduced then old(index) else Next(old(index))
    {
      ticks := ticks + 1;
      if !reduced {
        index := Next(index);
      }
    }

    /**
     * The rendered word: the label read to screen readers and the visible
     * word are the same entry of WORDS, the one the interval has rolled to
     * after `ticks` elapsed intervals (the first one under reduced motion).
     */
    function Render(): (v: View)
      requires Valid()
      reads this
      ensures v.srLabel == v.word && v.word in WORDS && v.key < |WORDS|
      ensures v.word == WORDS[v.key] && v.key == index
      ensures v.word == WORDS[if reduced then 0 else ticks % |WORDS|]
    {
      StepsWrap(0, ticks);
      View(WORDS[index], WORDS[index], index)
    }
  }
}
