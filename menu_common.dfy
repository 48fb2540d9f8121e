/**
 * What the two menu programs (main.py and menu.py) share: Up/Down
 * navigation that wraps around the visible list, the list of colours a
 * zone can be given, and the title of the colour list.
 */
module MenuCommon {

  import opened Parameters
  import opened Strings

  /** `color_index`: the colour chosen by each item of the colour list. */
  const COLOR_INDEX: seq<Color> := [Red, Green, Blue, Yellow]

  /** `(i + 1) % n`, the item that Down selects in a list of `n` items. */
  function NextItem(i: int, n: int): (r: int)
    requires n > 0
    ensures 0 <= r < n
    ensures 0 <= i < n - 1 ==> r == i + 1
    ensures i == n - 1 ==> r == 0
  {
    (i + 1) % n
  }

  /** `(i - 1) % n` with Python's non-negative remainder: the item Up selects. */
  function PrevItem(i: int, n: int): (r: int)
    requires n > 0
    ensures 0 <= r < n
    ensures 0 < i < n ==> r == i - 1
    ensures i == 0 ==> r == n - 1
  {
    (i - 1) % n
  }

  /** Up undoes Down and Down undoes Up on every item of the list. */
  lemma PrevUndoesNext(i: int, n: int)
    requires 0 <= i < n
    ensures PrevItem(NextItem(i, n), n) == i
    ensures NextItem(PrevItem(i, n), n) == i
  {
  }

  /** The item reached by pressing Down `k` times. */
  function NextTimes(i: int, n: int, k: nat): (r: int)
    requires n > 0
    ensures 0 <= r < n || (k == 0 && r == i)
  {
    if k == 0 then i else NextItem(NextTimes(i, n, k - 1), n)
  }

  lemma {:induction false} NextTimesAdd(i: int, n: int, a: nat, b: nat)
    requires n > 0
    ensures NextTimes(i, n, a + b) == NextTimes(NextTimes(i, n, a), n, b)
  {
    if b > 0 {
      NextTimesAdd(i, n, a, b - 1);
    }
  }

  lemma {:induction false} NextTimesClimbs(i: int, n: int, k: nat)
    requires 0 <= i && i + k < n
    ensures NextTimes(i, n, k) == i + k
  {
    if k > 0 {
      NextTimesClimbs(i, n, k - 1);
    }
  }

  /** Pressing Down as many times as the list has items comes back to the same item. */
  lemma NextTimesCycles(i: int, n: int)
    requires 0 <= i < n
    ensures NextTimes(i, n, n) == i
  {
    NextTimesClimbs(i, n, n - 1 - i);
    NextTimesAdd(i, n, n - 1 - i, 1);
    assert NextTimes(i, n, n - i) == 0;
    NextTimesAdd(i, n, n - i, i);
    NextTimesClimbs(0, n, i);
  }

  /** `k` passes of a menu loop, each with only Down held. */
  function DownPresses(k: nat): (p: seq<set<Button>>)
    ensures |p| == k
    ensures forall j :: 0 <= j < k ==> p[j] == {Down}
  {
    if k == 0 then [] else [{Down}] + DownPresses(k - 1)
  }

  /** The title of the colour list for zone `zone`: "Set Color For: Zone " + str(zone). */
  function ZoneTitle(zone: nat): (t: string)
    ensures t != "" && |t| > 20
    ensures t[..20] == "Set Color For: Zone " && t[20..] == Decimal(zone)
  {
    var digits := Decimal(zone);
    var t := "Set Color For: Zone " + digits;
    assert t[20..] == digits;
    t
  }
}
