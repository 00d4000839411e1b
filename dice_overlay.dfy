/** The dice dialog: a roll is either "4d6 drop lowest" (four six-sided dice, the lowest
    one not counted) or one die of the dialog's type; the result plus the bonus is handed
    to the caller when the user accepts. The random draws are parameters: a draw for a
    die of size n is the value of `Math.floor(Math.random() * n)`, a number in [0, n). */
module DiceOverlay {

  import opened Wrappers
  import opened Text

  // ---------------------------------------------------------------------------
  // Sums, minima and the descending sort
  // ---------------------------------------------------------------------------

  function Sum(s: seq<int>): int
  {
    if |s| == 0 then 0 else s[0] + Sum(s[1..])
  }

  /** The smallest element of a non-empty sequence. */
  function MinOf(s: seq<int>): (m: int)
    requires |s| > 0
    ensures m in s
    ensures forall k :: 0 <= k < |s| ==> m <= s[k]
  {
    if |s| == 1 then s[0]
    else
      var rest := MinOf(s[1..]);
      assert forall k :: 1 <= k < |s| ==> s[k] == s[1..][k - 1];
      if s[0] <= rest then s[0] else rest
  }

  predicate Descending(s: seq<int>)
  {
    forall i, j :: 0 <= i < j < |s| ==> s[i] >= s[j]
  }

  /** `x` inserted into a descending sequence. */
  function Insert(x: int, s: seq<int>): (r: seq<int>)
    requires Descending(s)
    ensures Descending(r)
    ensures multiset(r) == multiset(s) + multiset{x}
    ensures |r| == |s| + 1
  {
    if |s| == 0 then [x]
    else if x >= s[0] then [x] + s
    else
      var tail := Insert(x, s[1..]);
      assert s == [s[0]] + s[1..];
      HeadBoundsInsert(x, s, tail);
      ConsDescending(s[0], tail);
      [s[0]] + tail
  }

  /** Every element of a permutation of `s[1..]` plus a smaller `x` is at most `s[0]`. */
  lemma HeadBoundsInsert(x: int, s: seq<int>, tail: seq<int>)
    requires |s| > 0 && Descending(s) && x < s[0]
    requires multiset(tail) == multiset(s[1..]) + multiset{x}
    ensures forall k :: 0 <= k < |tail| ==> tail[k] <= s[0]
  {
    forall k | 0 <= k < |tail|
      ensures tail[k] <= s[0]
    {
      assert tail[k] in multiset(tail);
      if tail[k] != x {
        assert tail[k] in s[1..];
      }
    }
  }

  lemma ConsDescending(x: int, s: seq<int>)
    requires Descending(s) && forall k :: 0 <= k < |s| ==> s[k] <= x
    ensures Descending([x] + s)
  {
    var r := [x] + s;
    forall i, j | 0 <= i < j < |r|
      ensures r[i] >= r[j]
    {
      assert r[j] == s[j - 1];
      if i > 0 {
        assert r[i] == s[i - 1];
      }
    }
  }

  /** `[...rolls].sort((a, b) => b - a)`: a descending permutation of the rolls. */
  function SortDescending(s: seq<int>): (r: seq<int>)
    ensures Descending(r)
    ensures multiset(r) == multiset(s)
    ensures |r| == |s|
  {
    if |s| == 0 then []
    else
      assert s == [s[0]] + s[1..];
      Insert(s[0], SortDescending(s[1..]))
  }

  lemma {:induction false} SumAppend(a: seq<int>, b: seq<int>)
    ensures Sum(a + b) == Sum(a) + Sum(b)
  {
    if |a| == 0 {
      assert a + b == b;
    } else {
      assert (a + b)[1..] == a[1..] + b;
      SumAppend(a[1..], b);
    }
  }

  /** Removing the element at `j` takes `s[j]` off the sum. */
  lemma SumRemove(s: seq<int>, j: nat)
    requires j < |s|
    ensures Sum(s) == s[j] + Sum(s[..j] + s[j + 1..])
  {
    var front, rest, back := s[..j], s[j..], s[j + 1..];
    assert s == front + rest;
    SumAppend(front, rest);
    assert rest[0] == s[j] && rest[1..] == back;
    SumAppend(front, back);
  }

  /** The sum of a sequence depends only on its elements, not on their order. */
  lemma {:induction false} SumOfPermutation(a: seq<int>, b: seq<int>)
    requires multiset(a) == multiset(b)
    ensures Sum(a) == Sum(b)
    decreases |a|
  {
    if |a| == 0 {
      assert |b| == |multiset(b)| == 0;
    } else {
      assert a[0] in multiset(b);
      var j :| 0 <= j < |b| && b[j] == a[0];
      var b' := b[..j] + b[j + 1..];
      MultisetRemove(b, j);
      assert a == [a[0]] + a[1..];
      assert multiset(a[1..]) == multiset(b');
      SumOfPermutation(a[1..], b');
      SumRemove(b, j);
    }
  }

  /** Removing the element at `j` removes one occurrence of it from the multiset. */
  lemma MultisetRemove(b: seq<int>, j: nat)
    requires j < |b|
    ensures multiset(b[..j] + b[j + 1..]) == multiset(b) - multiset{b[j]}
  {
    assert b == b[..j] + [b[j]] + b[j + 1..];
  }

  /** The minimum depends only on the elements. */
  lemma MinOfPermutation(a: seq<int>, b: seq<int>)
    requires |a| > 0 && multiset(a) == multiset(b)
    ensures |b| > 0 && MinOf(a) == MinOf(b)
  {
    assert |b| == |multiset(b)| == |multiset(a)| == |a|;
    var ma, mb := MinOf(a), MinOf(b);
    assert ma in multiset(b) && mb in multiset(a);
  }

  // ---------------------------------------------------------------------------
  // 4d6 drop lowest
  // ---------------------------------------------------------------------------

  /** `r[0] + r[1] + r[2]` over the sorted copy `r`. */
  function DropLowest(rolls: seq<int>): int
    requires |rolls| == 4
  {
    var r := SortDescending(rolls);
    r[0] + r[1] + r[2]
  }

  /** The three largest of four: the sum of all four minus the smallest. */
  lemma DropLowestIsSumMinusMin(rolls: seq<int>)
    requires |rolls| == 4
    ensures DropLowest(rolls) == Sum(rolls) - MinOf(rolls)
  {
    var r := SortDescending(rolls);
    SumOfPermutation(r, rolls);
    MinOfPermutation(r, rolls);
    MinOfDescending(r);
    SumOfFour(r);
  }

  lemma SumOfFour(r: seq<int>)
    requires |r| == 4
    ensures Sum(r) == r[0] + r[1] + r[2] + r[3]
  {
    var a := r[1..];
    var b := a[1..];
    var c := b[1..];
    assert c[1..] == [];
    assert Sum(c) == r[3];
    assert Sum(b) == r[2] + r[3];
    assert Sum(a) == r[1] + r[2] + r[3];
  }

  /** The last element of a descending sequence is its minimum. */
  lemma MinOfDescending(r: seq<int>)
    requires |r| > 0 && Descending(r)
    ensures MinOf(r) == r[|r| - 1]
  {
    var m := MinOf(r);
    var k :| 0 <= k < |r| && r[k] == m;
    assert m <= r[|r| - 1];
    if k < |r| - 1 {
      assert r[k] >= r[|r| - 1];
    }
  }

  /** The total does not depend on the order the dice came up in. */
  lemma DropLowestOrderIndependent(a: seq<int>, b: seq<int>)
    requires |a| == 4 && multiset(a) == multiset(b)
    ensures |b| == 4 && DropLowest(a) == DropLowest(b)
  {
    assert |b| == |multiset(b)| == |multiset(a)| == |a|;
    DropLowestIsSumMinusMin(a);
    DropLowestIsSumMinusMin(b);
    SumOfPermutation(a, b);
    MinOfPermutation(a, b);
  }

  /** With every die in [1, 6] the total lies in [3, 18]. */
  lemma DropLowestBounds(rolls: seq<int>)
    requires |rolls| == 4 && forall k :: 0 <= k < 4 ==> 1 <= rolls[k] <= 6
    ensures 3 <= DropLowest(rolls) <= 18
  {
    var r := SortDescending(rolls);
    forall k | 0 <= k < 3
      ensures 1 <= r[k] <= 6
    {
      assert r[k] in multiset(rolls);
    }
  }

  // ---------------------------------------------------------------------------
  // The single die
  // ---------------------------------------------------------------------------

  /** The values the `type` property admits. */
  datatype DieType = D4 | D6 | D8 | D10 | D12 | D20
  {
    function Name(): string
    {
      match this
      case D4 => "d4"
      case D6 => "d6"
      case D8 => "d8"
      case D10 => "d10"
      case D12 => "d12"
      case D20 => "d20"
    }

    function Faces(): nat
    {
      match this
      case D4 => 4
      case D6 => 6
      case D8 => 8
      case D10 => 10
      case D12 => 12
      case D20 => 20
    }
  }

  /** `parseInt(type.substring(1)) || 20`: the number after the first character, or 20
      when there is none (or it is zero). */
  function SizeOfTypeName(name: string): (n: int)
    ensures n != 0
  {
    var digits := if |name| == 0 then "" else name[1..];
    match ParseInt(digits)
    case None => 20
    case Some(v) => if v == 0 then 20 else v
  }

  /** "d" followed by a positive number names a die of that many faces. */
  lemma SizeOfDieName(n: nat)
    requires n > 0
    ensures SizeOfTypeName("d" + NatToString(n)) == n
  {
    var name := "d" + NatToString(n);
    assert name[1..] == NatToString(n) == IntToString(n);
    ParseIntOfIntToString(n);
  }

  /** Every admitted type name gives its number of faces. */
  lemma SizeOfDieType(t: DieType)
    ensures SizeOfTypeName(t.Name()) == t.Faces()
  {
    match t
    case D4 => assert t.Name() == "d" + NatToString(4); SizeOfDieName(4);
    case D6 => assert t.Name() == "d" + NatToString(6); SizeOfDieName(6);
    case D8 => assert t.Name() == "d" + NatToString(8); SizeOfDieName(8);
    case D10 => assert t.Name() == "d" + NatToString(10); SizeOfDieName(10);
    case D12 => assert t.Name() == "d" + NatToString(12); SizeOfDieName(12);
    case D20 => assert t.Name() == "d" + NatToString(20); SizeOfDieName(20);
  }

  /** The size the dialog reads off its `type` property: always the die's number of faces. */
  function DieSize(t: DieType): (n: int)
    ensures n == t.Faces()
  {
    SizeOfDieType(t);
    SizeOfTypeName(t.Name())
  }

  /** A name without a number after its first letter falls back to a d20. */
  lemma SizeDefaultsToTwenty()
    ensures SizeOfTypeName("d") == 20 && SizeOfTypeName("") == 20 && SizeOfTypeName("dx") == 20
  {
    assert "dx"[1..] == "x";
  }

  // ---------------------------------------------------------------------------
  // The dialog's state
  // ---------------------------------------------------------------------------

  datatype RollType = Standard | FourDropLowest

  /** The draws one roll needs: four in [0, 6) for 4d6 drop lowest, one in [0, size)
      for a single die. */
  predicate DrawsFit(rollType: RollType, size: int, draws: seq<int>)
  {
    match rollType
    case FourDropLowest => |draws| == 4 && forall k :: 0 <= k < 4 ==> 0 <= draws[k] < 6
    case Standard => |draws| == 1 && 0 <= draws[0] < size
  }

  /** `Math.floor(Math.random() * n) + 1` for every draw. */
  function RollsOf(draws: seq<int>): (rolls: seq<int>)
    ensures |rolls| == |draws|
    ensures forall k :: 0 <= k < |draws| ==> rolls[k] == draws[k] + 1
  {
    seq(|draws|, k requires 0 <= k < |draws| => draws[k] + 1)
  }

  /** The total of a roll: the three best of four, or the single die. */
  function RollTotal(rollType: RollType, rolls: seq<int>): int
    requires rollType == FourDropLowest ==> |rolls| == 4
    requires rollType == Standard ==> |rolls| == 1
  {
    match rollType
    case FourDropLowest => DropLowest(rolls)
    case Standard => rolls[0]
  }

  /** A roll's total lies in [3, 18] for 4d6 drop lowest and in [1, size] for one die. */
  lemma RollTotalBounds(rollType: RollType, size: int, draws: seq<int>)
    requires DrawsFit(rollType, size, draws)
    ensures rollType == FourDropLowest ==> 3 <= RollTotal(rollType, RollsOf(draws)) <= 18
    ensures rollType == Standard ==> 1 <= RollTotal(rollType, RollsOf(draws)) <= size
  {
    if rollType == FourDropLowest {
      DropLowestBounds(RollsOf(draws));
    }
  }

  /** The 4d6 branch of `roll`: four dice from the draws, and the sum of the three largest
      after sorting a copy in descending order. */
  method RollFour(draws: seq<int>) returns (rolls: seq<int>, result: int)
    requires DrawsFit(FourDropLowest, 6, draws)
    ensures rolls == RollsOf(draws)
    ensures result == RollTotal(FourDropLowest, rolls)
  {
    rolls := [draws[0] + 1, draws[1] + 1, draws[2] + 1, draws[3] + 1];
    RollsOfFour(draws);
    var r := SortDescending(rolls);
    result := r[0] + r[1] + r[2];
  }

  lemma RollsOfFour(draws: seq<int>)
    requires |draws| == 4
    ensures RollsOf(draws) == [draws[0] + 1, draws[1] + 1, draws[2] + 1, draws[3] + 1]
  {
  }

  class DiceOverlay {
    var rolling: bool
    var total: Option<int>
    var finalResult: Option<int>
    var diceResults: seq<int>
    const rollType: RollType
    const dieType: DieType
    const bonus: int
    /** Whether the caller passed `onComplete`. */
    const hasOnComplete: bool

    /** A settled roll carries its result plus the bonus; before that there is no result. */
    ghost predicate Valid()
      reads this
    {
      (total.None? <==> finalResult.None?)
      && (total.Some? ==> finalResult == Some(total.value + bonus) && !rolling)
    }

    constructor (rollType: RollType, dieType: DieType, bonus: int, hasOnComplete: bool)
      ensures this.rollType == rollType && this.dieType == dieType && this.bonus == bonus
      ensures this.hasOnComplete == hasOnComplete
      ensures !rolling && total.None? && finalResult.None? && diceResults == []
      ensures Valid()
    {
      this.rollType := rollType;
      this.dieType := dieType;
      this.bonus := bonus;
      this.hasOnComplete := hasOnComplete;
      rolling := false;
      total := None;
      finalResult := None;
      diceResults := [];
    }

    /** The synchronous part of `roll`: spin with placeholder dice and clear the result. */
    method Roll()
      modifies this
      ensures rolling && total.None? && finalResult.None?
      ensures diceResults == if rollType == FourDropLowest then [1, 1, 1, 1] else [1]
      ensures Valid()
    {
      rolling := true;
      total := None;
      finalResult := None;
      if rollType == FourDropLowest {
        diceResults := [1, 1, 1, 1];
      } else {
        diceResults := [1];
      }
    }

    /** The delayed part of `roll`, given the random draws. The dice are reported in the
        order they were drawn; only the sum works on a sorted copy. */
    method Settle(draws: seq<int>)
      requires DrawsFit(rollType, dieType.Faces(), draws)
      modifies this
      ensures !rolling && diceResults == RollsOf(draws)
      ensures total == Some(RollTotal(rollType, RollsOf(draws)))
      ensures finalResult == Some(total.value + bonus)
      ensures rollType == FourDropLowest ==> 3 <= total.value <= 18
      ensures rollType == Standard ==> 1 <= total.value <= dieType.Faces()
      ensures Valid()
    {
      var result := 0;
      var currentRolls: seq<int> := [];
      if rollType == FourDropLowest {
        currentRolls, result := RollFour(draws);
      } else {
        var max := DieSize(dieType);
        var r := draws[0] + 1;
        result := r;
        currentRolls := [r];
        assert currentRolls == RollsOf(draws);
      }
      RollTotalBounds(rollType, dieType.Faces(), draws);
      rolling := false;
      diceResults := currentRolls;
      total := Some(result);
      finalResult := Some(result + bonus);
    }

    /** `handleAccept`: the call made to `onComplete`, if any, as (result, rolls). */
    method HandleAccept() returns (call: Option<(int, seq<int>)>)
      requires Valid()
      ensures call.Some? <==> hasOnComplete && total.Some?
      ensures call.Some? ==> call.value == (total.value + bonus, diceResults)
    {
      if hasOnComplete && total.Some? {
        var value := if finalResult.Some? then finalResult.value else 0;
        call := Some((value, diceResults));
      } else {
        call := None;
      }
    }
  }
}
