/**
 * The `LED_LAYOUT` and `LED_LAYOUT_ALL` macros of the daedric keymap's
 * config.h. A ledmap entry is written as one argument per LED in the order
 * the LEDs sit on the board, read row by row; the macro lists the
 * arguments again in LED-index order, the order `rgb_matrix_set_color`
 * numbers them.
 */
module LedLayout {
  /** `RGB_MATRIX_LED_COUNT` on the Moonlander. */
  const LedCount: nat := 72

  /**
   * The parameter list `l0, l5, l10, …, l68`: the `p`-th parameter is
   * named `l<Param(p)>`, and that is the LED its argument reaches.
   */
  function Param(p: nat): nat
    requires p < LedCount
  {
    match p
    case 0 => 0
    case 1 => 5
    case 2 => 10
    case 3 => 15
    case 4 => 20
    case 5 => 25
    case 6 => 29
    case 7 => 65
    case 8 => 61
    case 9 => 56
    case 10 => 51
    case 11 => 46
    case 12 => 41
    case 13 => 36
    case 14 => 1
    case 15 => 6
    case 16 => 11
    case 17 => 16
    case 18 => 21
    case 19 => 26
    case 20 => 30
    case 21 => 66
    case 22 => 62
    case 23 => 57
    case 24 => 52
    case 25 => 47
    case 26 => 42
    case 27 => 37
    case 28 => 2
    case 29 => 7
    case 30 => 12
    case 31 => 17
    case 32 => 22
    case 33 => 27
    case 34 => 31
    case 35 => 67
    case 36 => 63
    case 37 => 58
    case 38 => 53
    case 39 => 48
    case 40 => 43
    case 41 => 38
    case 42 => 3
    case 43 => 8
    case 44 => 13
    case 45 => 18
    case 46 => 23
    case 47 => 28
    case 48 => 64
    case 49 => 59
    case 50 => 54
    case 51 => 49
    case 52 => 44
    case 53 => 39
    case 54 => 4
    case 55 => 9
    case 56 => 14
    case 57 => 19
    case 58 => 24
    case 59 => 35
    case 60 => 71
    case 61 => 60
    case 62 => 55
    case 63 => 50
    case 64 => 45
    case 65 => 40
    case 66 => 32
    case 67 => 33
    case 68 => 34
    case 69 => 70
    case 70 => 69
    case _ => 68
  }

  /** Where the parameter named `l<i>` stands in the parameter list. */
  function Slot(i: nat): nat
    requires i < LedCount
  {
    match i
    case 0 => 0
    case 1 => 14
    case 2 => 28
    case 3 => 42
    case 4 => 54
    case 5 => 1
    case 6 => 15
    case 7 => 29
    case 8 => 43
    case 9 => 55
    case 10 => 2
    case 11 => 16
    case 12 => 30
    case 13 => 44
    case 14 => 56
    case 15 => 3
    case 16 => 17
    case 17 => 31
    case 18 => 45
    case 19 => 57
    case 20 => 4
    case 21 => 18
    case 22 => 32
    case 23 => 46
    case 24 => 58
    case 25 => 5
    case 26 => 19
    case 27 => 33
    case 28 => 47
    case 29 => 6
    case 30 => 20
    case 31 => 34
    case 32 => 66
    case 33 => 67
    case 34 => 68
    case 35 => 59
    case 36 => 13
    case 37 => 27
    case 38 => 41
    case 39 => 53
    case 40 => 65
    case 41 => 12
    case 42 => 26
    case 43 => 40
    case 44 => 52
    case 45 => 64
    case 46 => 11
    case 47 => 25
    case 48 => 39
    case 49 => 51
    case 50 => 63
    case 51 => 10
    case 52 => 24
    case 53 => 38
    case 54 => 50
    case 55 => 62
    case 56 => 9
    case 57 => 23
    case 58 => 37
    case 59 => 49
    case 60 => 61
    case 61 => 8
    case 62 => 22
    case 63 => 36
    case 64 => 48
    case 65 => 7
    case 66 => 21
    case 67 => 35
    case 68 => 71
    case 69 => 70
    case 70 => 69
    case _ => 60
  }

  lemma SlotOfParamRow0(p: nat)
    requires p < 14
    ensures Param(p) < LedCount && Slot(Param(p)) == p
  {
  }

  lemma SlotOfParamRow1(p: nat)
    requires 14 <= p < 28
    ensures Param(p) < LedCount && Slot(Param(p)) == p
  {
  }

  lemma SlotOfParamRow2(p: nat)
    requires 28 <= p < 42
    ensures Param(p) < LedCount && Slot(Param(p)) == p
  {
  }

  lemma SlotOfParamRow3(p: nat)
    requires 42 <= p < 54
    ensures Param(p) < LedCount && Slot(Param(p)) == p
  {
  }

  lemma SlotOfParamRow4(p: nat)
    requires 54 <= p < 66
    ensures Param(p) < LedCount && Slot(Param(p)) == p
  {
  }

  lemma SlotOfParamRow5(p: nat)
    requires 66 <= p < 72
    ensures Param(p) < LedCount && Slot(Param(p)) == p
  {
  }

  lemma ParamOfSlotBlock0(i: nat)
    requires i < 12
    ensures Slot(i) < LedCount && Param(Slot(i)) == i
  {
  }

  lemma ParamOfSlotBlock1(i: nat)
    requires 12 <= i < 24
    ensures Slot(i) < LedCount && Param(Slot(i)) == i
  {
  }

  lemma ParamOfSlotBlock2(i: nat)
    requires 24 <= i < 36
    ensures Slot(i) < LedCount && Param(Slot(i)) == i
  {
  }

  lemma ParamOfSlotBlock3(i: nat)
    requires 36 <= i < 48
    ensures Slot(i) < LedCount && Param(Slot(i)) == i
  {
  }

  lemma ParamOfSlotBlock4(i: nat)
    requires 48 <= i < 60
    ensures Slot(i) < LedCount && Param(Slot(i)) == i
  {
  }

  lemma ParamOfSlotBlock5(i: nat)
    requires 60 <= i < 72
    ensures Slot(i) < LedCount && Param(Slot(i)) == i
  {
  }

  /**
   * The parameter list names each of `l0` … `l71` exactly once: `Param`
   * and `Slot` are inverse bijections of 0..71.
   */
  lemma ParamBijective()
    ensures forall p :: 0 <= p < LedCount ==> Param(p) < LedCount && Slot(Param(p)) == p
    ensures forall i :: 0 <= i < LedCount ==> Slot(i) < LedCount && Param(Slot(i)) == i
  {
    forall p | 0 <= p < LedCount
      ensures Param(p) < LedCount && Slot(Param(p)) == p
    {
      if p < 14 { SlotOfParamRow0(p); }
      else if p < 28 { SlotOfParamRow1(p); }
      else if p < 42 { SlotOfParamRow2(p); }
      else if p < 54 { SlotOfParamRow3(p); }
      else if p < 66 { SlotOfParamRow4(p); }
      else { SlotOfParamRow5(p); }
    }
    forall i | 0 <= i < LedCount
      ensures Slot(i) < LedCount && Param(Slot(i)) == i
    {
      if i < 12 { ParamOfSlotBlock0(i); }
      else if i < 24 { ParamOfSlotBlock1(i); }
      else if i < 36 { ParamOfSlotBlock2(i); }
      else if i < 48 { ParamOfSlotBlock3(i); }
      else if i < 60 { ParamOfSlotBlock4(i); }
      else { ParamOfSlotBlock5(i); }
    }
  }

  /** Two parameters never reach the same LED. */
  lemma ParamInjective(p: nat, q: nat)
    requires p < LedCount && q < LedCount && Param(p) == Param(q)
    ensures p == q
  {
    ParamBijective();
    assert Slot(Param(p)) == p && Slot(Param(q)) == q;
  }

  /**
   * `LED_LAYOUT(args…)`: its expansion lists `DEPAREN(l0)` … `DEPAREN(l71)`,
   * so LED `i` receives the argument in slot `Slot(i)`. (`DEPAREN` only
   * strips the parentheses an `HSV_C` colour is written in.)
   */
  function Expand<T>(args: seq<T>): (leds: seq<T>)
    requires |args| == LedCount
    ensures |leds| == LedCount
    ensures forall p :: 0 <= p < LedCount ==> leds[Param(p)] == args[p]
    ensures forall i :: 0 <= i < LedCount ==> leds[i] == args[Slot(i)]
  {
    ParamBijective();
    seq(LedCount, i requires 0 <= i < LedCount => args[Slot(i)])
  }

  /**
   * `LED_LAYOUT_ALL(color)`: `color` in every one of the 72 slots, so every
   * LED gets it.
   */
  function ExpandAll<T>(color: T): (leds: seq<T>)
    ensures |leds| == LedCount
    ensures forall i :: 0 <= i < LedCount ==> leds[i] == color
  {
    Expand(seq(LedCount, _ => color))
  }
}
