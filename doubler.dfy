/** The decimal doubler of the test suite as a transition table, and its
    correctness for every natural number: started on the decimal form of n
    with the head on the last digit, it halts accepted with the decimal form
    of 2n on the tape. State "0" doubles a digit with no carry in, state "1"
    with a carry of one; the blank left of the number ends the run, writing
    the final carry if there is one. */
module Doubler {
  import opened Results
  import opened Transitions
  import opened Tapes
  import opened States
  import opened Semantics

  /** The blank symbol of the test runs. */
  const Nul: char := '\0'

  /** The table built by the test suite's `getMultiplyByTwoTuringMachine`:
      "H" is the only accepting state; "2" and "H" have no transitions. */
  function DoublingTable(): (t: Table)
    ensures t.Keys == {"0", "1", "2", "H"}
    ensures t["H"].accepting && t["H"].transitions == map[]
    ensures !t["0"].accepting && !t["1"].accepting && !t["2"].accepting
  {
    map[
      "0" := StateEntry(false, map[
        '0' := Transition('0', LEFT, "0"), '1' := Transition('2', LEFT, "0"),
        '2' := Transition('4', LEFT, "0"), '3' := Transition('6', LEFT, "0"),
        '4' := Transition('8', LEFT, "0"), '5' := Transition('0', LEFT, "1"),
        '6' := Transition('2', LEFT, "1"), '7' := Transition('4', LEFT, "1"),
        '8' := Transition('6', LEFT, "1"), '9' := Transition('8', LEFT, "1"),
        Nul := Transition(Nul, HALT, "H")]),
      "1" := StateEntry(false, map[
        '0' := Transition('1', LEFT, "0"), '1' := Transition('3', LEFT, "0"),
        '2' := Transition('5', LEFT, "0"), '3' := Transition('7', LEFT, "0"),
        '4' := Transition('9', LEFT, "0"), '5' := Transition('1', LEFT, "1"),
        '6' := Transition('3', LEFT, "1"), '7' := Transition('5', LEFT, "1"),
        '8' := Transition('7', LEFT, "1"), '9' := Transition('9', LEFT, "1"),
        Nul := Transition('1', HALT, "H")]),
      "2" := StateEntry(false, map[]),
      "H" := StateEntry(true, map[])]
  }

  /** Every transition of the doubler leads to one of its states, so each
      `addTransition` of the test's builder names a known destination. */
  lemma DoublingTableClosed()
    ensures var t := DoublingTable();
      forall n, symbol :: n in t && symbol in t[n].transitions ==> t[n].transitions[symbol].stateTo in t
  {
  }


  predicate IsDigit(ch: char) {
    '0' <= ch <= '9'
  }

  predicate AllDigits(s: string) {
    forall i :: 0 <= i < |s| ==> IsDigit(s[i])
  }

  function DigitValue(ch: char): nat
    requires IsDigit(ch)
  {
    ch as int - '0' as int
  }

  function DigitChar(d: nat): (ch: char)
    requires d < 10
    ensures IsDigit(ch) && DigitValue(ch) == d
  {
    ('0' as int + d) as char
  }

  /** `String.valueOf(n)`: the decimal form of `n`, without leading zeros. */
  function Decimal(n: nat): (s: string)
    ensures |s| >= 1 && AllDigits(s)
  {
    if n < 10 then [DigitChar(n)] else Decimal(n / 10) + [DigitChar(n % 10)]
  }

  /** The state that doubles a digit with carry `carry` in. */
  function CarryState(carry: nat): string
    requires carry <= 1
  {
    if carry == 0 then "0" else "1"
  }

  /** The last digit of `u` doubled, with `carry` added, as a digit. */
  function LastDoubled(u: string, carry: nat): (e: char)
    requires AllDigits(u) && u != [] && carry <= 1
    ensures IsDigit(e)
  {
    DigitChar((2 * DigitValue(u[|u| - 1]) + carry) % 10)
  }

  /** The carry out of doubling the last digit of `u`, with `carry` added. */
  function LastCarry(u: string, carry: nat): (c: nat)
    requires AllDigits(u) && u != [] && carry <= 1
    ensures c <= 1
  {
    (2 * DigitValue(u[|u| - 1]) + carry) / 10
  }

  /** The digits of twice `u` plus `carry`, written right to left, without
      the carry out of the leftmost digit. */
  function DoubledDigits(u: string, carry: nat): (r: string)
    requires AllDigits(u) && carry <= 1
    ensures |r| == |u| && AllDigits(r)
    decreases |u|
  {
    if u == [] then [] else DoubledDigits(u[..|u| - 1], LastCarry(u, carry)) + [LastDoubled(u, carry)]
  }

  /** The carry out of the leftmost digit when doubling `u` plus `carry`. */
  function CarryOut(u: string, carry: nat): (c: nat)
    requires AllDigits(u) && carry <= 1
    ensures c <= 1
    decreases |u|
  {
    if u == [] then carry else CarryOut(u[..|u| - 1], LastCarry(u, carry))
  }

  /** Twice `u` plus `carry`, digit by digit: the doubled digits, preceded by
      a 1 when the leftmost digit carries. */
  function Doubled(u: string, carry: nat): string
    requires AllDigits(u) && carry <= 1
  {
    (if CarryOut(u, carry) == 1 then "1" else "") + DoubledDigits(u, carry)
  }

  /** Doubling a string of digits is doubling all but its last digit, with
      the carry out of the last digit, followed by the last digit doubled. */
  lemma DoubledLast(u: string, carry: nat)
    requires AllDigits(u) && carry <= 1 && u != []
    ensures Doubled(u, carry) == Doubled(u[..|u| - 1], LastCarry(u, carry)) + [LastDoubled(u, carry)]
  {
    var rest, c := u[..|u| - 1], LastCarry(u, carry);
    var prefix := if CarryOut(rest, c) == 1 then "1" else "";
    assert Doubled(u, carry) == prefix + (DoubledDigits(rest, c) + [LastDoubled(u, carry)]);
  }

  /** The decimal form of `n` ends with its last digit, after the decimal
      form of the rest when there is one. */
  lemma DecimalLast(n: nat)
    ensures Decimal(n) == (if n < 10 then "" else Decimal(n / 10)) + [DigitChar(n % 10)]
  {
  }

  /** The last digit of the decimal form of `n`, doubled with `carry` added,
      and the carry out of it, in terms of `n`. */
  lemma LastOfDecimal(n: nat, carry: nat)
    requires n >= 10 && carry <= 1
    ensures var s := Decimal(n);
      && s[..|s| - 1] == Decimal(n / 10)
      && LastCarry(s, carry) == (2 * (n % 10) + carry) / 10
      && LastDoubled(s, carry) == DigitChar((2 * (n % 10) + carry) % 10)
  {
    var s := Decimal(n);
    DecimalLast(n);
    assert s[..|s| - 1] == Decimal(n / 10) && s[|s| - 1] == DigitChar(n % 10);
  }

  /** The decimal form of `2n + carry` for `n` of two digits or more: the
      decimal form of twice the rest of `n` plus the carry out of the last
      digit, followed by the last digit of twice that digit plus `carry`. */
  lemma DecimalOfTwice(n: nat, carry: nat)
    requires n >= 10 && carry <= 1
    ensures var x := 2 * (n % 10) + carry;
      Decimal(2 * n + carry) == Decimal(2 * (n / 10) + x / 10) + [DigitChar(x % 10)]
  {
    var m, d := n / 10, n % 10;
    var x := 2 * d + carry;
    assert n == 10 * m + d;
    assert x / 10 == (if x >= 10 then 1 else 0) && x % 10 == (if x >= 10 then x - 10 else x);
    assert 2 * n + carry == 10 * (2 * m + x / 10) + x % 10;
    DecimalLast(2 * n + carry);
  }

  /** Doubling a single digit, with `carry` added. */
  lemma DoubledDigit(n: nat, carry: nat)
    requires n < 10 && carry <= 1
    ensures Doubled(Decimal(n), carry) == Decimal(2 * n + carry)
  {
    var x := 2 * n + carry;
    DoubledLast(Decimal(n), carry);
    assert Decimal(n)[..0] == [];
    DecimalLast(x);
    if x >= 10 {
      assert Doubled([], 1) == "1";
      assert Decimal(x / 10) == "1";
    } else {
      assert Doubled([], 0) == [];
    }
  }

  /** Doubling the decimal form of `n` digit by digit, with `carry` added,
      gives the decimal form of `2n + carry`. */
  lemma {:induction false} DoubledDecimal(n: nat, carry: nat)
    requires carry <= 1
    ensures Doubled(Decimal(n), carry) == Decimal(2 * n + carry)
    decreases n
  {
    if n < 10 {
      DoubledDigit(n, carry);
    } else {
      var s := Decimal(n);
      LastOfDecimal(n, carry);
      DoubledLast(s, carry);
      DoubledDecimal(n / 10, LastCarry(s, carry));
      DecimalOfTwice(n, carry);
    }
  }

  /** The doubler's step on a digit: it writes the last digit of twice the
      digit plus the carry, moves left, and carries the rest. */
  lemma DigitTransition(carry: nat, ch: char)
    requires carry <= 1 && IsDigit(ch)
    ensures var x := 2 * DigitValue(ch) + carry;
      TransitionFor(DoublingTable(), CarryState(carry), ch)
        == Some(Transition(DigitChar(x % 10), LEFT, CarryState(x / 10)))
  {
    if carry == 0 {
      DigitTransitionWithoutCarry(ch);
    } else {
      DigitTransitionWithCarry(ch);
    }
  }

  /** State "0" on each digit. */
  lemma DigitTransitionWithoutCarry(ch: char)
    requires IsDigit(ch)
    ensures var x := 2 * DigitValue(ch);
      TransitionFor(DoublingTable(), "0", ch) == Some(Transition(DigitChar(x % 10), LEFT, CarryState(x / 10)))
  {
    var t := DoublingTable();
    if ch == '0' { assert t["0"].transitions['0'] == Transition('0', LEFT, "0"); }
    else if ch == '1' { assert t["0"].transitions['1'] == Transition('2', LEFT, "0"); }
    else if ch == '2' { assert t["0"].transitions['2'] == Transition('4', LEFT, "0"); }
    else if ch == '3' { assert t["0"].transitions['3'] == Transition('6', LEFT, "0"); }
    else if ch == '4' { assert t["0"].transitions['4'] == Transition('8', LEFT, "0"); }
    else if ch == '5' { assert t["0"].transitions['5'] == Transition('0', LEFT, "1"); }
    else if ch == '6' { assert t["0"].transitions['6'] == Transition('2', LEFT, "1"); }
    else if ch == '7' { assert t["0"].transitions['7'] == Transition('4', LEFT, "1"); }
    else if ch == '8' { assert t["0"].transitions['8'] == Transition('6', LEFT, "1"); }
    else { assert t["0"].transitions['9'] == Transition('8', LEFT, "1"); }
  }

  /** State "1" on each digit. */
  lemma DigitTransitionWithCarry(ch: char)
    requires IsDigit(ch)
    ensures var x := 2 * DigitValue(ch) + 1;
      TransitionFor(DoublingTable(), "1", ch) == Some(Transition(DigitChar(x % 10), LEFT, CarryState(x / 10)))
  {
    var t := DoublingTable();
    if ch == '0' { assert t["1"].transitions['0'] == Transition('1', LEFT, "0"); }
    else if ch == '1' { assert t["1"].transitions['1'] == Transition('3', LEFT, "0"); }
    else if ch == '2' { assert t["1"].transitions['2'] == Transition('5', LEFT, "0"); }
    else if ch == '3' { assert t["1"].transitions['3'] == Transition('7', LEFT, "0"); }
    else if ch == '4' { assert t["1"].transitions['4'] == Transition('9', LEFT, "0"); }
    else if ch == '5' { assert t["1"].transitions['5'] == Transition('1', LEFT, "1"); }
    else if ch == '6' { assert t["1"].transitions['6'] == Transition('3', LEFT, "1"); }
    else if ch == '7' { assert t["1"].transitions['7'] == Transition('5', LEFT, "1"); }
    else if ch == '8' { assert t["1"].transitions['8'] == Transition('7', LEFT, "1"); }
    else { assert t["1"].transitions['9'] == Transition('9', LEFT, "1"); }
  }

  /** The doubler's step on the blank left of the number: it halts in "H",
      writing the carry if there is one. */
  lemma BlankTransition(carry: nat)
    requires carry <= 1
    ensures TransitionFor(DoublingTable(), CarryState(carry), Nul)
         == Some(Transition(if carry == 1 then '1' else Nul, HALT, "H"))
  {
  }

  /** What a table needs to double: in the carry states it doubles a digit
      and moves left, and on the blank it halts in "H" writing the carry. */
  predicate Doubling(t: Table) {
    && (forall carry: nat, ch :: carry <= 1 && IsDigit(ch) ==>
          TransitionFor(t, CarryState(carry), ch)
            == Some(Transition(DigitChar((2 * DigitValue(ch) + carry) % 10), LEFT,
                               CarryState((2 * DigitValue(ch) + carry) / 10))))
    && (forall carry: nat :: carry <= 1 ==>
          TransitionFor(t, CarryState(carry), Nul) == Some(Transition(if carry == 1 then '1' else Nul, HALT, "H")))
  }

  /** The doubling table of the test suite doubles. */
  lemma DoublingTableDoubles()
    ensures Doubling(DoublingTable())
  {
    forall carry: nat, ch | carry <= 1 && IsDigit(ch)
      ensures TransitionFor(DoublingTable(), CarryState(carry), ch)
            == Some(Transition(DigitChar((2 * DigitValue(ch) + carry) % 10), LEFT,
                               CarryState((2 * DigitValue(ch) + carry) / 10)))
    {
      DigitTransition(carry, ch);
    }
    forall carry: nat | carry <= 1
      ensures TransitionFor(DoublingTable(), CarryState(carry), Nul)
            == Some(Transition(if carry == 1 then '1' else Nul, HALT, "H"))
    {
      BlankTransition(carry);
    }
  }

  /** Where the pass over `u` starts: the digits of `u` followed by the
      doubled `v` from offset 0, the head on the last digit of `u`, and the
      state of the pending carry. */
  function PassStart(u: string, v: string, carry: nat): Config
    requires carry <= 1
  {
    Config(CarryState(carry), InitialCells(u + v, 0, Nul), |u| - 1, Nul)
  }

  /** Where the pass over `u` ends: in "H" left of the number, with the
      doubled digits of `u` before `v` and the final carry, if any, left of
      them. */
  function PassEnd(u: string, v: string, carry: nat): Config
    requires AllDigits(u) && carry <= 1
  {
    Config("H", Written(InitialCells(DoubledDigits(u, carry) + v, 0, Nul), -1,
                        if CarryOut(u, carry) == 1 then '1' else Nul, Nul), -1, Nul)
  }

  /** The pass over the number: with `u` still to double, `v` already
      doubled on its right, the head on the last digit of `u` and `carry`
      pending, a doubling table doubles the digits of `u` right to left, one
      step each, and halts on the blank left of them, writing the final carry. */
  lemma {:induction false} DoublingPass(t: Table, u: string, v: string, carry: nat)
    requires Doubling(t) && AllDigits(u) && AllDigits(v) && carry <= 1
    ensures Run(t, PassStart(u, v, carry), |u| + 1) == (PassEnd(u, v, carry), true)
    decreases |u|
  {
    if u == [] {
      PassHalts(t, v, carry);
    } else {
      var rest, w, c := u[..|u| - 1], [LastDoubled(u, carry)] + v, LastCarry(u, carry);
      DigitsSplit(u, v, LastDoubled(u, carry));
      PassStep(t, u, v, carry);
      DoublingPass(t, rest, w, c);
      PassEndLast(u, v, carry);
      StepThenRun(t, PassStart(u, v, carry), PassStart(rest, w, c), |u|, PassEnd(rest, w, c));
    }
  }

  /** All but the last digit of `u`, and a digit before `v`, are digits. */
  lemma DigitsSplit(u: string, v: string, e: char)
    requires AllDigits(u) && AllDigits(v) && IsDigit(e) && u != []
    ensures |u[..|u| - 1]| + 1 == |u| && AllDigits(u[..|u| - 1]) && AllDigits([e] + v)
  {
    assert forall i :: 0 <= i < |v| ==> ([e] + v)[i + 1] == v[i];
  }

  /** With nothing left to double, the table halts on the blank left of the
      number, writing the carry. */
  lemma PassHalts(t: Table, v: string, carry: nat)
    requires Doubling(t) && AllDigits(v) && carry <= 1
    ensures Run(t, PassStart([], v, carry), 1) == (PassEnd([], v, carry), true)
  {
    var c0 := PassStart([], v, carry);
    assert [] + v == v && DoubledDigits([], carry) + v == v;
    assert -1 !in c0.cells;
    NextTaking(t, c0, Transition(if carry == 1 then '1' else Nul, HALT, "H"));
  }

  /** One step of the pass: the last digit of `u` is replaced by its doubled
      digit, which joins the doubled part, and the head moves left with the
      new carry. */
  lemma PassStep(t: Table, u: string, v: string, carry: nat)
    requires Doubling(t) && AllDigits(u) && AllDigits(v) && carry <= 1 && u != []
    ensures Next(t, PassStart(u, v, carry))
         == (PassStart(u[..|u| - 1], [LastDoubled(u, carry)] + v, LastCarry(u, carry)), true)
  {
    var k := |u| - 1;
    var e := LastDoubled(u, carry);
    var c0 := PassStart(u, v, carry);
    SpliceLast(u, v, e);
    ScannedDigit(u + v, k);
    NextTaking(t, c0, Transition(e, LEFT, CarryState(LastCarry(u, carry))));
    WrittenInside(u + v, 0, Nul, k, e);
  }

  /** Replacing the last character of `u` in `u + v`. */
  lemma SpliceLast(u: string, v: string, e: char)
    requires u != []
    ensures (u + v)[|u| - 1] == u[|u| - 1]
    ensures (u + v)[|u| - 1 := e] == u[..|u| - 1] + ([e] + v)
  {
  }

  /** A fresh tape holds each digit of its content at its own position. */
  lemma ScannedDigit(w: string, k: int)
    requires 0 <= k < |w| && IsDigit(w[k])
    ensures CellAt(InitialCells(w, 0, Nul), Nul, k) == w[k]
  {
    assert w[k] != Nul;
  }

  /** The end of the pass over `u` is the end of the pass over all but its
      last digit, once that digit is doubled and joins the doubled part. */
  lemma PassEndLast(u: string, v: string, carry: nat)
    requires AllDigits(u) && carry <= 1 && u != []
    ensures PassEnd(u, v, carry) == PassEnd(u[..|u| - 1], [LastDoubled(u, carry)] + v, LastCarry(u, carry))
  {
    var front := DoubledDigits(u[..|u| - 1], LastCarry(u, carry));
    var e := LastDoubled(u, carry);
    assert DoubledDigits(u, carry) == front + [e];
    assert (front + [e]) + v == front + ([e] + v);
  }

  /** The tape the doubler halts with on the decimal form of `n`: the doubled
      digits from offset 0, and the final carry, if any, just left of them. */
  function DoubledCells(n: nat): map<int, char> {
    var s := Decimal(n);
    Written(InitialCells(DoubledDigits(s, 0), 0, Nul), -1, if CarryOut(s, 0) == 1 then '1' else Nul, Nul)
  }

  /** The run of a doubling table on the decimal form of `n` halts after
      one step per digit and one more, in "H", with the head left of the
      number, under any budget that allows for those steps. */
  lemma DoublingRun(t: Table, n: nat, fuel: nat)
    requires Doubling(t) && fuel >= |Decimal(n)| + 1
    ensures var s := Decimal(n);
      Run(t, Initial("0", s, 0, |s| - 1, Nul), fuel) == (Config("H", DoubledCells(n), -1, Nul), true)
  {
    var s := Decimal(n);
    assert s + "" == s;
    assert DoubledDigits(s, 0) + "" == DoubledDigits(s, 0);
    assert Initial("0", s, 0, |s| - 1, Nul) == PassStart(s, "", 0);
    assert PassEnd(s, "", 0) == Config("H", DoubledCells(n), -1, Nul);
    DoublingPass(t, s, "", 0);
    RunStopsForGood(t, PassStart(s, "", 0), |s| + 1, fuel);
  }

  /** A digit is never the blank. */
  lemma DigitsNotBlank(s: string)
    requires AllDigits(s) && s != []
    ensures s[0] != Nul && s[|s| - 1] != Nul
  {
    assert IsDigit(s[0]) && IsDigit(s[|s| - 1]);
  }

  /** With a carry out, the tape holds a 1 left of the doubled digits. */
  lemma CarriedContent(digits: string)
    requires AllDigits(digits) && digits != []
    ensures Content(Written(InitialCells(digits, 0, Nul), -1, '1', Nul), Nul) == "1" + digits
    ensures Leftmost(Written(InitialCells(digits, 0, Nul), -1, '1', Nul)) == -1
  {
    DigitsNotBlank(digits);
    ContentWrittenBefore(digits, 0, Nul, '1');
  }

  /** Without a carry out, the tape holds just the doubled digits. */
  lemma UncarriedContent(digits: string)
    requires AllDigits(digits) && digits != []
    ensures Content(Written(InitialCells(digits, 0, Nul), -1, Nul, Nul), Nul) == digits
    ensures Leftmost(Written(InitialCells(digits, 0, Nul), -1, Nul, Nul)) == 0
  {
    DigitsNotBlank(digits);
    WrittenBlankOutside(digits, 0, Nul, -1);
    ContentOfInitialCells(digits, 0, Nul);
  }

  /** The halting tape reads `String.valueOf(2n)`, starting as many cells
      left of 0 as the result has extra digits. */
  lemma DoubledCellsContent(n: nat)
    ensures Content(DoubledCells(n), Nul) == Decimal(2 * n)
    ensures Leftmost(DoubledCells(n)) == |Decimal(n)| - |Decimal(2 * n)|
  {
    var s := Decimal(n);
    var digits := DoubledDigits(s, 0);
    DoubledDecimal(n, 0);
    if CarryOut(s, 0) == 1 {
      assert Decimal(2 * n) == "1" + digits;
      CarriedContent(digits);
    } else {
      assert Decimal(2 * n) == digits;
      UncarriedContent(digits);
    }
  }

  /** A doubling table doubles every natural number: started on
      `String.valueOf(n)` from offset 0 with the head on the last digit, it
      halts within one step per digit plus one, in "H", with
      `String.valueOf(2n)` on the tape, the offset moved left by the number
      of extra digits, and the head just left of the original number. */
  lemma DoublingTableRun(t: Table, n: nat, fuel: nat)
    requires Doubling(t) && fuel >= |Decimal(n)| + 1
    ensures var s := Decimal(n);
      var (d, stopped) := Run(t, Initial("0", s, 0, |s| - 1, Nul), fuel);
      && stopped && d.state == "H" && d.head == -1 && d.blank == Nul
      && Content(d.cells, Nul) == Decimal(2 * n)
      && Leftmost(d.cells) == |s| - |Decimal(2 * n)|
  {
    DoublingRun(t, n, fuel);
    DoubledCellsContent(n);
  }

  /** The doubler of the test suite doubles every natural number, and the
      state it halts in is accepting. */
  lemma Doubles(n: nat, fuel: nat)
    requires fuel >= |Decimal(n)| + 1
    ensures var s := Decimal(n);
      var (d, stopped) := Run(DoublingTable(), Initial("0", s, 0, |s| - 1, Nul), fuel);
      && stopped && d.state == "H" && Accepted(DoublingTable(), d) && d.head == -1
      && Content(d.cells, Nul) == Decimal(2 * n)
      && Leftmost(d.cells) == |s| - |Decimal(2 * n)|
  {
    DoublingTableDoubles();
    DoublingTableRun(DoublingTable(), n, fuel);
    assert "H" in DoublingTable();
  }
}
