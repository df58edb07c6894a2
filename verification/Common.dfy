/** Small shared vocabulary of the model. */
module Common {

  datatype Option<+T> = None | Some(value: T)

  function Min(a: int, b: int): int {
    if a <= b then a else b
  }

  // ------------------------------------------------------------ id texts

  function Digit(d: nat): char
    requires d < 10
  {
    "0123456789"[d]
  }

  function Decimal(n: nat): string {
    if n < 10 then [Digit(n)] else Decimal(n / 10) + [Digit(n % 10)]
  }

  lemma {:induction false} DecimalHasNoColon(n: nat)
    ensures ':' !in Decimal(n)
  {
    if n >= 10 { DecimalHasNoColon(n / 10); }
  }

  lemma {:induction false} DecimalInjective(m: nat, n: nat)
    requires Decimal(m) == Decimal(n)
    ensures m == n
  {
    DecimalLength(m);
    DecimalLength(n);
    var a, b := Decimal(m), Decimal(n);
    assert a[|a| - 1] == Digit(m % 10) && b[|b| - 1] == Digit(n % 10);
    if m >= 10 {
      assert a[..|a| - 1] == Decimal(m / 10) && b[..|b| - 1] == Decimal(n / 10);
      DecimalInjective(m / 10, n / 10);
    }
  }

  lemma {:induction false} DecimalLength(n: nat)
    ensures |Decimal(n)| >= 1 && (n >= 10 <==> |Decimal(n)| >= 2)
  {
    if n >= 10 { DecimalLength(n / 10); }
  }

  lemma ShorterLeftLeavesColon(left: string, right: string, left': string, right': string)
    requires left + ":" + right == left' + ":" + right'
    ensures |left| < |left'| ==> ':' in right
  {
    if |left| < |left'| {
      assert (left' + ":" + right')[|left'|] == ':';
      assert (left + ":" + right)[|left'|] == right[|left'| - |left| - 1];
    }
  }

  /** Colon-free text after the last colon is determined by the whole string. */
  lemma LastColonSplits(left: string, right: string, left': string, right': string)
    requires ':' !in right && ':' !in right'
    requires left + ":" + right == left' + ":" + right'
    ensures left == left' && right == right'
  {
    ShorterLeftLeavesColon(left, right, left', right');
    ShorterLeftLeavesColon(left', right', left, right);
    var whole, whole' := left + ":" + right, left' + ":" + right';
    assert left == whole[..|left|] && right == whole[|left| + 1..];
    assert left' == whole'[..|left'|] && right' == whole'[|left'| + 1..];
  }
}
