/**
 * The calculator screen (CalculatorApp in components/Apps.tsx): a display string and a
 * flag that makes the next key start a new number. JavaScript's `eval` is an abstract
 * evaluator that either yields the printed result or throws (None).
 */
module Calculator {
  import opened Wrappers

  /** The index of the first `c` in `s`, or |s| when there is none. */
  function FirstIndex(s: string, c: char): (k: nat)
    ensures k <= |s| && c !in s[..k]
    ensures k < |s| ==> s[k] == c
    decreases |s|
  {
    if s == [] then 0
    else if s[0] == c then 0
    else
      var k := 1 + FirstIndex(s[1..], c);
      assert s[..k] == [s[0]] + s[1..][..k - 1];
      k
  }

  /** String.prototype.replace with a one-character pattern, as the source calls it: only the first match is replaced. */
  function ReplaceFirst(s: string, from: char, to: char): (r: string)
    ensures |r| == |s|
    ensures from !in s ==> r == s
    ensures forall i :: 0 <= i < |s| && i != FirstIndex(s, from) ==> r[i] == s[i]
    ensures FirstIndex(s, from) < |s| ==> r[FirstIndex(s, from)] == to
  {
    var k := FirstIndex(s, from);
    if k == |s| then s else s[..k] + [to] + s[k + 1..]
  }

  /** Every occurrence replaced: what the calculator evidently intends before evaluating. */
  function ReplaceAll(s: string, from: char, to: char): (r: string)
    ensures |r| == |s|
    ensures forall i :: 0 <= i < |s| ==> r[i] == if s[i] == from then to else s[i]
  {
    if s == [] then [] else [if s[0] == from then to else s[0]] + ReplaceAll(s[1..], from, to)
  }

  /** As written, a display with two multiplications still holds an 'x' after the replacement. */
  /**
   * As written, "3x0x12" reaches the evaluator as "3*0x12": the surviving 'x' follows a
   * lone 0, so the evaluator reads a hexadecimal literal instead of a multiplication.
   */
  lemma TimesAfterZeroFormsHex()
    ensures Expression("3x0x12") == "3*0x12"
  {
    var s := "3x0x12";
    assert s[0] != 'x' && s[1] == 'x';
    assert FirstIndex(s, 'x') == 1;
  }

  lemma ReplaceFirstMissesSecondTimes()
    ensures ReplaceFirst("3x4x2", 'x', '*') == "3*4x2"
    ensures 'x' in ReplaceFirst("3x4x2", 'x', '*')
  {
    var s := "3x4x2";
    assert s[0] != 'x' && s[1] == 'x';
    assert FirstIndex(s, 'x') == 1;
    var r := ReplaceFirst(s, 'x', '*');
    assert r[3] == 'x';
  }

  /** As written, every 'x' after the first survives the replacement. */
  lemma ReplaceFirstKeepsLaterTimes(s: string, i: nat, j: nat)
    requires i < j < |s| && s[i] == 'x' && s[j] == 'x'
    ensures ReplaceFirst(s, 'x', '*')[j] == 'x'
  {
    assert FirstIndex(s, 'x') <= i;
  }

  /** Corrected: after replacing every 'x' the expression holds no 'x' at all. */
  lemma ReplaceAllLeavesNoTimes(s: string)
    ensures 'x' !in ReplaceAll(s, 'x', '*')
  {
    var r := ReplaceAll(s, 'x', '*');
    forall i | 0 <= i < |r| ensures r[i] != 'x' {
    }
  }

  /** As written: the expression handed to the evaluator is `display.replace('x', '*')`. */
  function Expression(display: string): (r: string)
    ensures |r| == |display|
    ensures forall i :: 0 <= i < |display| && i != FirstIndex(display, 'x') ==> r[i] == display[i]
    ensures 'x' in display ==> r[FirstIndex(display, 'x')] == '*'
  {
    ReplaceFirst(display, 'x', '*')
  }

  /** As intended: every 'x' of the display is written as '*'. */
  function IntendedExpression(display: string): (r: string)
    ensures |r| == |display| && 'x' !in r
    ensures forall i :: 0 <= i < |display| && display[i] == 'x' ==> r[i] == '*'
    ensures forall i :: 0 <= i < |display| && display[i] != 'x' ==> r[i] == display[i]
  {
    ReplaceAllLeavesNoTimes(display);
    ReplaceAll(display, 'x', '*')
  }

  /** With at most one 'x' in the display, the written and the intended expression agree. */
  lemma ExpressionsAgreeWithOneTimes(display: string)
    requires forall i, j :: 0 <= i < j < |display| && display[i] == 'x' ==> display[j] != 'x'
    ensures Expression(display) == IntendedExpression(display)
  {
    var k := FirstIndex(display, 'x');
    var e, f := Expression(display), IntendedExpression(display);
    forall i | 0 <= i < |display|
      ensures e[i] == f[i]
    {
      if i < k {
        assert display[i] in display[..k];
      }
    }
  }

  datatype Calc = Calc(display: string, reset: bool)

  const InitialCalc: Calc := Calc("0", false)

  /** The calculator after key `val`, where `result` is what evaluating the display gave (used on "=" only). */
  function Step(c: Calc, val: string, result: Option<string>): Calc
  {
    if val == "C" then Calc("0", false)
    else if val == "=" then
      match result
      case Some(v) => Calc(v, true)
      case None => Calc("Error", true)
    else if c.display == "0" || c.reset then Calc(val, false)
    else Calc(c.display + val, false)
  }

  /** handle, as written: one key of the calculator, "=" evaluating Expression of the display. */
  function Press(c: Calc, val: string, eval: string -> Option<string>): (r: Calc)
    ensures r.reset <==> val == "="
    ensures val == "C" ==> r.display == "0"
    ensures val == "=" && eval(Expression(c.display)).None? ==> r.display == "Error"
    ensures val == "=" && eval(Expression(c.display)).Some? ==> r.display == eval(Expression(c.display)).value
    ensures val != "C" && val != "=" && (c.display == "0" || c.reset) ==> r.display == val
    ensures val != "C" && val != "=" && c.display != "0" && !c.reset ==> r.display == c.display + val
  {
    Step(c, val, eval(Expression(c.display)))
  }

  /** handle, as intended: "=" evaluates the display with every 'x' as '*'; other keys as written. */
  function PressIntended(c: Calc, val: string, eval: string -> Option<string>): (r: Calc)
    ensures val != "=" ==> r == Press(c, val, eval)
    ensures val == "=" ==> r.reset
    ensures val == "=" && eval(IntendedExpression(c.display)).None? ==> r.display == "Error"
    ensures val == "=" && eval(IntendedExpression(c.display)).Some? ==> r.display == eval(IntendedExpression(c.display)).value
  {
    Step(c, val, eval(IntendedExpression(c.display)))
  }

  /** The two agree on every display with at most one 'x'. */
  lemma PressAgreesWithOneTimes(c: Calc, val: string, eval: string -> Option<string>)
    requires forall i, j :: 0 <= i < j < |c.display| && c.display[i] == 'x' ==> c.display[j] != 'x'
    ensures PressIntended(c, val, eval) == Press(c, val, eval)
  {
    ExpressionsAgreeWithOneTimes(c.display);
  }

  /**
   * As written, "3x4x2" followed by "=" hands "3*4x2" to the evaluator, which throws on it,
   * so the display shows "Error".
   */
  lemma TimesTwiceShowsError(eval: string -> Option<string>)
    requires eval("3*4x2").None?
    ensures Press(Calc("3x4x2", false), "=", eval) == Calc("Error", true)
  {
    ReplaceFirstMissesSecondTimes();
  }

  /** As intended, "3x4x2" followed by "=" shows the value of "3*4*2". */
  lemma TimesTwiceEvaluates(eval: string -> Option<string>)
    requires eval("3*4*2").Some?
    ensures PressIntended(Calc("3x4x2", false), "=", eval) == Calc(eval("3*4*2").value, true)
  {
    var r := IntendedExpression("3x4x2");
    assert r[0] == '3' && r[1] == '*' && r[2] == '4' && r[3] == '*' && r[4] == '2';
    assert r == "3*4*2";
  }

  /** A key pressed right after "=" starts a new number, whatever the evaluation gave. */
  lemma KeyAfterEqualsStartsAfresh(c: Calc, val: string, eval: string -> Option<string>)
    requires val != "C" && val != "="
    ensures Press(Press(c, "=", eval), val, eval) == Calc(val, false)
  {
  }

  /** The display after a run of keys. */
  function PressAll(c: Calc, keys: seq<string>, eval: string -> Option<string>): Calc
    decreases |keys|
  {
    if keys == [] then c else PressAll(Press(c, keys[0], eval), keys[1..], eval)
  }

  function Concat(keys: seq<string>): string
    decreases |keys|
  {
    if keys == [] then "" else keys[0] + Concat(keys[1..])
  }

  /** A key that `handle` appends to a number in progress: one character, neither C nor =. */
  predicate AppendingKey(key: string) {
    |key| == 1 && key != "C" && key != "="
  }

  /** An appending key on a number in progress is appended, and reset stays off. */
  lemma AppendKey(c: Calc, key: string, eval: string -> Option<string>)
    requires c.display != "" && c.display != "0" && !c.reset && AppendingKey(key)
    ensures Press(c, key, eval) == Calc(c.display + key, false)
    ensures |c.display + key| >= 2
  {
  }

  /** A run of keys on a number in progress goes on from the display after its first key. */
  lemma AppendStep(c: Calc, keys: seq<string>, eval: string -> Option<string>)
    requires c.display != "" && c.display != "0" && !c.reset
    requires keys != [] && AppendingKey(keys[0])
    ensures PressAll(c, keys, eval) == PressAll(Calc(c.display + keys[0], false), keys[1..], eval)
  {
    AppendKey(c, keys[0], eval);
  }

  /** The tail of a run of appending keys is a run of appending keys. */
  lemma AppendingTail(keys: seq<string>)
    requires keys != [] && forall i :: 0 <= i < |keys| ==> AppendingKey(keys[i])
    ensures AppendingKey(keys[0]) && forall i :: 0 <= i < |keys[1..]| ==> AppendingKey(keys[1..][i])
  {
    assert forall i :: 0 <= i < |keys[1..]| ==> keys[1..][i] == keys[i + 1];
  }

  /** Appending the first key and then the rest appends all of them. */
  lemma ConcatStep(display: string, keys: seq<string>)
    requires keys != []
    ensures (display + keys[0]) + Concat(keys[1..]) == display + Concat(keys)
  {
    assert Concat(keys) == keys[0] + Concat(keys[1..]);
  }

  /** Digits and operators typed onto a number in progress are appended to it in order. */
  lemma {:induction false} KeysAppend(c: Calc, keys: seq<string>, eval: string -> Option<string>)
    requires c.display != "" && c.display != "0" && !c.reset
    requires forall i :: 0 <= i < |keys| ==> AppendingKey(keys[i])
    ensures PressAll(c, keys, eval) == Calc(c.display + Concat(keys), false)
    decreases |keys|
  {
    if keys != [] {
      AppendingTail(keys);
      AppendKey(c, keys[0], eval);
      AppendStep(c, keys, eval);
      KeysAppend(Calc(c.display + keys[0], false), keys[1..], eval);
      ConcatStep(c.display, keys);
    }
  }

  class CalculatorScreen {
    var display: string
    var reset: bool

    constructor ()
      ensures Calc(display, reset) == InitialCalc
    {
      display := "0";
      reset := false;
    }

    method Handle(val: string, eval: string -> Option<string>)
      modifies this
      ensures Calc(display, reset) == Press(Calc(old(display), old(reset)), val, eval)
    {
      if val == "C" {
        display := "0";
        reset := false;
      } else if val == "=" {
        var result := eval(Expression(display));
        if result.Some? {
          display := result.value;
          reset := true;
        } else {
          display := "Error";
          reset := true;
        }
      } else {
        if display == "0" || reset {
          display := val;
          reset := false;
        } else {
          display := display + val;
        }
      }
    }
  }
}
