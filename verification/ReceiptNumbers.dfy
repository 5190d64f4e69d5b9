/** Receipt numbering of a lineage (src/inventory/inventory.tx.ts, lines 74-115).

    Children of a split are numbered `base-A`, `base-B`, ..., `base-Z`, `base-AA`, ...
    The letters are a positional numeral with digits 1 to 26 and no zero
    (bijective base 26), which is the reference used below. */
module ReceiptNumbers {

  predicate IsLetters(s: string) {
    forall k :: 0 <= k < |s| ==> 'A' <= s[k] <= 'Z'
  }

  /** The texts matched by `^[A-Z]+$`. */
  predicate IsSuffix(s: string) {
    s != [] && IsLetters(s)
  }

  function Digit(c: char): (d: int)
    requires 'A' <= c <= 'Z'
    ensures 1 <= d <= 26
  {
    c as int - 'A' as int + 1
  }

  function Letter(d: int): (c: char)
    requires 1 <= d <= 26
    ensures 'A' <= c <= 'Z' && Digit(c) == d
  {
    (d - 1 + 'A' as int) as char
  }

  /** The number a suffix denotes. */
  function Value(s: string): nat
    requires IsLetters(s)
  {
    if s == [] then 0 else 26 * Value(s[..|s| - 1]) + Digit(s[|s| - 1])
  }

  /** The suffix that denotes a number. */
  function Numeral(v: nat): (s: string)
    ensures IsLetters(s)
    ensures v > 0 ==> s != []
  {
    if v == 0 then [] else Numeral((v - 1) / 26) + [Letter((v - 1) % 26 + 1)]
  }

  lemma {:induction false} NumeralDenotes(v: nat)
    ensures Value(Numeral(v)) == v
  {
    if v > 0 {
      NumeralDenotes((v - 1) / 26);
      var s := Numeral((v - 1) / 26);
      assert (s + [Letter((v - 1) % 26 + 1)])[..|s|] == s;
    }
  }

  lemma {:induction false} ValueDenotes(s: string)
    requires IsLetters(s)
    ensures Numeral(Value(s)) == s
  {
    if s != [] {
      var front, d := s[..|s| - 1], Digit(s[|s| - 1]);
      ValueDenotes(front);
      assert (Value(s) - 1) / 26 == Value(front) && (Value(s) - 1) % 26 + 1 == d;
      assert s == front + [s[|s| - 1]];
    }
  }

  /** The comparator of the sort: shorter first, then alphabetical. */
  predicate Precedes(a: string, b: string) {
    |a| < |b| || (|a| == |b| && AlphabeticallyBefore(a, b))
  }

  predicate AlphabeticallyBefore(a: string, b: string)
    requires |a| == |b|
  {
    a != [] && (a[0] < b[0] || (a[0] == b[0] && AlphabeticallyBefore(a[1..], b[1..])))
  }

  /** How many suffixes are shorter than `n` letters, plus one: the least value of that length. */
  function Least(n: nat): nat {
    if n == 0 then 0 else 26 * Least(n - 1) + 1
  }

  lemma {:induction false} ValueRange(s: string)
    requires IsLetters(s)
    ensures Least(|s|) <= Value(s) <= 26 * Least(|s|)
  {
    if s != [] {
      ValueRange(s[..|s| - 1]);
    }
  }

  lemma {:induction false} LeastMonotone(m: nat, n: nat)
    requires m <= n
    ensures Least(m) <= Least(n)
  {
    if m < n {
      LeastMonotone(m, n - 1);
    }
  }

  function Pow26(n: nat): nat {
    if n == 0 then 1 else 26 * Pow26(n - 1)
  }

  lemma {:induction false} ValueFromFront(s: string)
    requires IsSuffix(s)
    ensures Value(s) == Digit(s[0]) * Pow26(|s| - 1) + Value(s[1..])
  {
    if |s| > 1 {
      ValueFromFront(s[..|s| - 1]);
      assert s[..|s| - 1][1..] == s[1..][..|s| - 2];
    }
  }

  lemma {:induction false} LeastIsBelowPower(n: nat)
    ensures 25 * Least(n) + 1 == Pow26(n)
  {
    if n > 0 {
      LeastIsBelowPower(n - 1);
    }
  }

  lemma {:induction false} Outweighs(x: int, y: int, place: nat, u: int, v: int)
    requires x < y && u < v + place
    ensures x * place + u < y * place + v
    decreases y - x
  {
    assert y * place == (y - 1) * place + place;
    if x < y - 1 {
      Outweighs(x, y - 1, place, u, v);
    }
  }

  /** Between texts of one length the first letter outweighs all the others. */
  lemma {:induction false} FirstLetterDecides(a: string, b: string)
    requires IsSuffix(a) && IsSuffix(b) && |a| == |b| && a[0] < b[0]
    ensures Value(a) < Value(b)
  {
    ValueFromFront(a);
    ValueFromFront(b);
    ValueRange(a[1..]);
    ValueRange(b[1..]);
    LeastIsBelowPower(|a| - 1);
    Outweighs(Digit(a[0]), Digit(b[0]), Pow26(|a| - 1), Value(a[1..]), Value(b[1..]));
  }

  /** The sort order of the source is the order of the denoted numbers. */
  lemma {:induction false} OrderIsNumeric(a: string, b: string)
    requires IsLetters(a) && IsLetters(b)
    ensures Precedes(a, b) <==> Value(a) < Value(b)
  {
    ValueRange(a);
    ValueRange(b);
    if |a| < |b| {
      LeastMonotone(|a| + 1, |b|);
    } else if |b| < |a| {
      LeastMonotone(|b| + 1, |a|);
    } else if a != [] {
      if a[0] < b[0] {
        FirstLetterDecides(a, b);
      } else if b[0] < a[0] {
        FirstLetterDecides(b, a);
      } else {
        OrderIsNumeric(a[1..], b[1..]);
        ValueFromFront(a);
        ValueFromFront(b);
      }
    }
  }

  /** The greatest element; `GreatestIsLast` makes it the last one of the sorted list. */
  function Greatest(existing: seq<string>): (g: string)
    requires existing != []
    ensures g in existing
  {
    if |existing| == 1 then existing[0]
    else
      var g := Greatest(existing[..|existing| - 1]);
      if Precedes(g, existing[|existing| - 1]) then existing[|existing| - 1] else g
  }

  lemma {:induction false} GreatestIsAbove(existing: seq<string>)
    requires existing != [] && forall s :: s in existing ==> IsLetters(s)
    ensures forall s :: s in existing ==> Value(s) <= Value(Greatest(existing))
  {
    if |existing| > 1 {
      var front, last := existing[..|existing| - 1], existing[|existing| - 1];
      GreatestIsAbove(front);
      OrderIsNumeric(Greatest(front), last);
      forall s | s in existing ensures Value(s) <= Value(Greatest(existing)) {
        assert s in front || s == last;
      }
    }
  }

  /** However the list is sorted by the comparator, its last element is the greatest. */
  lemma GreatestIsLast(existing: seq<string>, sorted: seq<string>)
    requires existing != [] && forall s :: s in existing ==> IsLetters(s)
    requires multiset(sorted) == multiset(existing)
    requires forall i, j :: 0 <= i < j < |sorted| ==> !Precedes(sorted[j], sorted[i])
    ensures sorted != [] && sorted[|sorted| - 1] == Greatest(existing)
  {
    hide Precedes, Value, Numeral;
    var g := Greatest(existing);
    assert g in multiset(sorted);
    var last := sorted[|sorted| - 1];
    assert last in multiset(existing);
    GreatestIsAbove(existing);
    var i :| 0 <= i < |sorted| && sorted[i] == g;
    OrderIsNumeric(last, g);
    ValueDenotes(last);
    ValueDenotes(g);
  }

  /** The successor of the greatest taken suffix. */
  function NextFree(existing: seq<string>): (s: string)
    requires forall e :: e in existing ==> IsSuffix(e)
    ensures IsSuffix(s)
  {
    if existing == [] then "A"
    else
      var last := Greatest(existing);
      assert IsSuffix(last);
      Numeral(Value(last) + 1)
  }

  /** What a caller relies on: the number handed out is the least one above every
      number already taken, so it is new. */
  lemma NextFreeIsLeastAbove(existing: seq<string>)
    requires forall e :: e in existing ==> IsSuffix(e)
    ensures NextFree(existing) !in existing
    ensures forall e :: e in existing ==> Precedes(e, NextFree(existing))
    ensures forall t | IsSuffix(t) && (forall e :: e in existing ==> Precedes(e, t)) ::
              t == NextFree(existing) || Precedes(NextFree(existing), t)
  {
    var next := NextFree(existing);
    assert Value("A") == 1 by { assert "A"[..0] == []; }
    if existing != [] {
      GreatestIsAbove(existing);
      NumeralDenotes(Value(Greatest(existing)) + 1);
    }
    forall e | e in existing ensures Precedes(e, next) && e != next {
      OrderIsNumeric(e, next);
    }
    forall t | IsSuffix(t) && (forall e :: e in existing ==> Precedes(e, t))
      ensures t == next || Precedes(next, t)
    {
      OrderIsNumeric(next, t);
      if existing != [] {
        OrderIsNumeric(Greatest(existing), t);
      }
      if Value(t) == Value(next) {
        ValueDenotes(t);
        ValueDenotes(next);
      }
    }
  }

  /** Incrementing a letter and turning the Zs behind it into As adds one. */
  lemma {:induction false} CarryInto(s: string, t: string, i: nat)
    requires IsSuffix(s) && |t| == |s| && i < |s|
    requires s[i] != 'Z' && t[i] as int == s[i] as int + 1
    requires forall k :: 0 <= k < i ==> t[k] == s[k]
    requires forall k :: i < k < |s| ==> s[k] == 'Z' && t[k] == 'A'
    ensures IsSuffix(t) && Value(t) == Value(s) + 1
  {
    var n := |s| - 1;
    assert IsLetters(t);
    if i == n {
      assert t[..n] == s[..n];
    } else {
      CarryInto(s[..n], t[..n], i);
    }
  }

  /** A run of Zs carries into a new leading A. */
  lemma {:induction false} CarryOut(s: string, t: string)
    requires s != [] && |t| == |s| + 1
    requires forall k :: 0 <= k < |s| ==> s[k] == 'Z'
    requires forall k :: 0 <= k < |t| ==> t[k] == 'A'
    ensures IsSuffix(t) && Value(t) == Value(s) + 1
  {
    var n := |s| - 1;
    assert IsLetters(t) && IsLetters(s);
    if n == 0 {
      assert s[..0] == [] && t[..1][..0] == [];
    } else {
      CarryOut(s[..n], t[..n + 1]);
    }
  }

  /** What the carry loop leaves when it stops at letter `i`, or runs off the front (-1). */
  predicate Carried(s: string, t: string, i: int) {
    && -1 <= i < |s|
    && |t| == (if i < 0 then |s| + 1 else |s|)
    && (i < 0 ==> forall k :: 0 <= k < |t| ==> t[k] == 'A')
    && (i >= 0 ==> s[i] != 'Z' && t[i] as int == s[i] as int + 1)
    && (forall k :: 0 <= k < i ==> t[k] == s[k])
    && (forall k :: i < k < |s| ==> s[k] == 'Z' && (i >= 0 ==> t[k] == 'A'))
  }

  lemma CarryAddsOne(s: string, t: string, i: int)
    requires IsSuffix(s) && Carried(s, t, i)
    ensures IsSuffix(t) && Numeral(Value(s) + 1) == t
  {
    if i < 0 {
      CarryOut(s, t);
    } else {
      CarryInto(s, t, i);
    }
    ValueDenotes(t);
  }

  /** `nextSuffix`, with its carry loop over the letters. */
  method NextSuffix(existing: seq<string>) returns (suffix: string)
    requires forall e :: e in existing ==> IsSuffix(e)
    ensures suffix == NextFree(existing)
  {
    hide Greatest, Value, Numeral;
    if |existing| == 0 {
      return "A";
    }
    var last := Greatest(existing);
    assert IsSuffix(last);
    if |last| == 1 && last != "Z" {
      suffix := [(last[0] as int + 1) as char];
      CarryAddsOne(last, suffix, 0);
      return;
    }
    if last == "Z" {
      CarryAddsOne(last, "AA", -1);
      return "AA";
    }
    var chars := new char[|last|](i requires 0 <= i < |last| => last[i]);
    var i := chars.Length - 1;
    while i >= 0
      invariant -1 <= i < chars.Length == |last|
      invariant forall k :: 0 <= k <= i ==> chars[k] == last[k]
      invariant forall k :: i < k < |last| ==> last[k] == 'Z' && chars[k] == 'A'
    {
      if chars[i] != 'Z' {
        chars[i] := (chars[i] as int + 1) as char;
        suffix := chars[..];
        CarryAddsOne(last, suffix, i);
        return;
      }
      chars[i] := 'A';
      i := i - 1;
    }
    suffix := "A" + chars[..];
    CarryAddsOne(last, suffix, -1);
  }

  /** Position of the last dash, or -1. */
  function LastDash(number: string): (k: int)
    ensures -1 <= k < |number|
    ensures k >= 0 ==> number[k] == '-'
    ensures forall j :: k < j < |number| ==> number[j] != '-'
  {
    if number == [] then -1
    else if number[|number| - 1] == '-' then |number| - 1
    else LastDash(number[..|number| - 1])
  }

  /** `baseReceiptNumber`: drops one trailing `-LETTERS`. A match can only start
      at the last dash, because the letters contain none. */
  function BaseReceiptNumber(number: string): string {
    var k := LastDash(number);
    if k >= 0 && IsSuffix(number[k + 1..]) then number[..k] else number
  }

  function ChildNumber(base: string, suffix: string): string {
    base + "-" + suffix
  }

  /** Numbering a child and taking the base undo each other, whatever the base. */
  lemma BaseOfChild(base: string, suffix: string)
    requires IsSuffix(suffix)
    ensures BaseReceiptNumber(ChildNumber(base, suffix)) == base
  {
    var number := ChildNumber(base, suffix);
    assert number[|base|] == '-' && number[..|base|] == base && number[|base| + 1..] == suffix;
    assert forall j :: |base| < j < |number| ==> number[j] == suffix[j - |base| - 1];
  }

  /** `existingChildSuffixes` over the receipt numbers on file. */
  function ExistingSuffixes(numbers: seq<string>, base: string): (taken: seq<string>)
    ensures forall s :: s in taken ==> IsSuffix(s)
  {
    if numbers == [] then []
    else
      var rest := ExistingSuffixes(numbers[..|numbers| - 1], base);
      var n := numbers[|numbers| - 1];
      if base + "-" <= n && IsSuffix(n[|base| + 1..]) then rest + [n[|base| + 1..]] else rest
  }

  lemma {:induction false} ExistingSuffixesComplete(numbers: seq<string>, base: string, suffix: string)
    requires IsSuffix(suffix)
    ensures ChildNumber(base, suffix) in numbers <==> suffix in ExistingSuffixes(numbers, base)
  {
    if numbers != [] {
      var front, n := numbers[..|numbers| - 1], numbers[|numbers| - 1];
      ExistingSuffixesComplete(front, base, suffix);
      if base + "-" <= n {
        assert n == base + "-" + n[|base| + 1..];
      }
      if n == ChildNumber(base, suffix) {
        assert n[|base| + 1..] == suffix && base + "-" <= n;
      }
      assert forall x :: x in numbers <==> x in front || x == n;
    }
  }

  /** Both numbers a split hands out are new to the whole table and to each other. */
  lemma SplitNumbersAreNew(numbers: seq<string>, base: string)
    ensures var taken := ExistingSuffixes(numbers, base);
            var first := NextFree(taken);
            var second := NextFree(taken + [first]);
            && ChildNumber(base, first) !in numbers
            && ChildNumber(base, second) !in numbers
            && ChildNumber(base, first) != ChildNumber(base, second)
  {
    var taken := ExistingSuffixes(numbers, base);
    var first := NextFree(taken);
    var second := NextFree(taken + [first]);
    NextFreeIsLeastAbove(taken);
    NextFreeIsLeastAbove(taken + [first]);
    ExistingSuffixesComplete(numbers, base, first);
    ExistingSuffixesComplete(numbers, base, second);
    assert first in taken + [first];
    assert forall s :: s in taken ==> s in taken + [first];
    assert ChildNumber(base, first)[|base| + 1..] == first;
    assert ChildNumber(base, second)[|base| + 1..] == second;
  }
}
