/** The search visits paths in lexicographic order of the places they were taken at, like an
    odometer: the reading goes up with every step, whatever the model and its states. */
module Odometer {

  ghost function Times(a: nat, p: nat): (r: nat)
  {
    if a == 0 then 0 else Times(a - 1, p) + p
  }

  lemma {:induction false} TimesStep(a: nat, b: nat, p: nat)
    requires a < b
    ensures Times(a, p) + p <= Times(b, p)
  {
    if a + 1 < b {
      TimesStep(a, b - 1, p);
    }
  }

  ghost function Pow(base: nat, n: nat): (r: nat)
  {
    if n == 0 then 1 else Times(base, Pow(base, n - 1))
  }

  lemma {:induction false} PowPositive(base: nat, n: nat)
    requires base > 0
    ensures Pow(base, n) > 0
  {
    if n > 0 {
      PowPositive(base, n - 1);
      TimesStep(0, base, Pow(base, n - 1));
    }
  }

  /** The digits as a number in the given base, padded with zeros to n digits. */
  ghost function Reading(digits: seq<nat>, n: nat, base: nat): (r: nat)
    requires |digits| <= n
  {
    if digits == [] then 0 else Times(digits[0], Pow(base, n - 1)) + Reading(digits[1..], n - 1, base)
  }

  ghost predicate DigitsBelow(digits: seq<nat>, base: nat)
  {
    forall i :: 0 <= i < |digits| ==> digits[i] < base
  }

  lemma {:induction false} ReadingBound(digits: seq<nat>, n: nat, base: nat)
    requires |digits| <= n && DigitsBelow(digits, base) && base > 0
    ensures Reading(digits, n, base) < Pow(base, n)
  {
    if digits != [] {
      ReadingBound(digits[1..], n - 1, base);
      TimesStep(digits[0], base, Pow(base, n - 1));
    } else {
      PowPositive(base, n);
    }
  }

  /** Turning one digit up outweighs everything to the right of it. */
  lemma {:induction false} ReadingIncreases(front: seq<nat>, a: nat, back: seq<nat>, b: nat, n: nat, base: nat)
    requires |front| + 1 + |back| <= n && DigitsBelow(back, base) && base > 0 && a < b
    ensures Reading(front + [a] + back, n, base) < Reading(front + [b], n, base)
    decreases |front|
  {
    if front == [] {
      assert ([a] + back)[1..] == back && [b][1..] == [];
      assert front + [a] + back == [a] + back && front + [b] == [b];
      ReadingBound(back, n - 1, base);
      TimesStep(a, b, Pow(base, n - 1));
    } else {
      var tail := front[1..];
      assert (front + [a] + back)[1..] == tail + [a] + back;
      assert (front + [b])[1..] == tail + [b];
      ReadingIncreases(tail, a, back, b, n - 1, base);
    }
  }

  /** Appending a non-zero digit turns the reading up. */
  lemma {:induction false} ReadingExtends(front: seq<nat>, b: nat, n: nat, base: nat)
    requires |front| < n && base > 0 && b > 0
    ensures Reading(front, n, base) < Reading(front + [b], n, base)
    decreases |front|
  {
    if front == [] {
      assert front + [b] == [b] && [b][1..] == [];
      PowPositive(base, n - 1);
      TimesStep(0, b, Pow(base, n - 1));
    } else {
      assert (front + [b])[1..] == front[1..] + [b];
      ReadingExtends(front[1..], b, n - 1, base);
    }
  }
}
