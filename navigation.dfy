/**
 * The slide-navigation state machine as pure functions of the position and
 * the deck length: the two guarded steps, the two button-disabled flags and
 * the effect of any sequence of button presses.
 */
module Navigation {

  /** Position after pressing "next": one step forward unless already on the last slide. */
  function NextIndex(pos: int, count: int): (r: int)
    ensures r == pos || r == pos + 1
    ensures r == pos + 1 <==> pos < count - 1
    ensures 0 <= pos < count ==> 0 <= r < count
  {
    if pos < count - 1 then pos + 1 else pos
  }

  /** Position after pressing "previous": one step back unless already on the first slide. */
  function PrevIndex(pos: int): (r: int)
    ensures r == pos || r == pos - 1
    ensures r == pos - 1 <==> pos > 0
    ensures 0 <= pos ==> 0 <= r <= pos
  {
    if pos > 0 then pos - 1 else pos
  }

  /** The "previous" button is disabled on the first slide. */
  predicate PrevDisabledAt(pos: int)
  {
    pos == 0
  }

  /** The "next" button is disabled on the last slide. */
  predicate NextDisabledAt(pos: int, count: int)
  {
    pos == count - 1
  }

  /**
   * Within the deck, each step leaves the position unchanged exactly when
   * its button is disabled: the step's guard and the button's flag agree.
   */
  lemma NoOpIffDisabled(pos: int, count: int)
    requires 0 <= pos < count
    ensures NextIndex(pos, count) == pos <==> NextDisabledAt(pos, count)
    ensures PrevIndex(pos) == pos <==> PrevDisabledAt(pos)
  {
  }

  /** A press of one of the two navigation buttons. */
  datatype Command = Next | Prev

  function Step(pos: int, count: int, c: Command): int
  {
    match c
    case Next => NextIndex(pos, count)
    case Prev => PrevIndex(pos)
  }

  /** Position after pressing the buttons in `cmds`, in order, starting at `pos`. */
  function Run(pos: int, count: int, cmds: seq<Command>): int
    decreases |cmds|
  {
    if cmds == [] then pos else Run(Step(pos, count, cmds[0]), count, cmds[1..])
  }

  /** No sequence of presses moves the position out of the deck. */
  lemma {:induction false} RunStaysInRange(pos: int, count: int, cmds: seq<Command>)
    requires 0 <= pos < count
    ensures 0 <= Run(pos, count, cmds) < count
    decreases |cmds|
  {
    if cmds != [] {
      RunStaysInRange(Step(pos, count, cmds[0]), count, cmds[1..]);
    }
  }

  /** `k` presses of the same button. */
  function Repeat(c: Command, k: nat): (r: seq<Command>)
    ensures |r| == k
    ensures forall i :: 0 <= i < k ==> r[i] == c
  {
    if k == 0 then [] else [c] + Repeat(c, k - 1)
  }

  function Min(a: int, b: int): int { if a <= b then a else b }

  function Max(a: int, b: int): int { if a >= b then a else b }

  /** Pressing "next" `k` times moves forward `k` slides, stopping at the last one. */
  lemma {:induction false} ForwardPresses(pos: int, count: int, k: nat)
    requires 0 <= pos < count
    ensures Run(pos, count, Repeat(Next, k)) == Min(pos + k, count - 1)
    decreases k
  {
    if k > 0 {
      assert Repeat(Next, k)[1..] == Repeat(Next, k - 1);
      ForwardPresses(NextIndex(pos, count), count, k - 1);
    }
  }

  /** Pressing "previous" `k` times moves back `k` slides, stopping at the first one. */
  lemma {:induction false} BackwardPresses(pos: int, count: int, k: nat)
    requires 0 <= pos < count
    ensures Run(pos, count, Repeat(Prev, k)) == Max(pos - k, 0)
    decreases k
  {
    if k > 0 {
      assert Repeat(Prev, k)[1..] == Repeat(Prev, k - 1);
      BackwardPresses(PrevIndex(pos), count, k - 1);
    }
  }
}
