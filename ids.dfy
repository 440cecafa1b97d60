/** The fresh-id supplier that stands in for random UUIDs: the n-th invoice
    created gets the decimal spelling of n as its id. Uniqueness of ids over
    the store's lifetime rests on IdOf being injective. */
module Ids {

  function DigitChar(d: nat): char
    requires d < 10
  {
    ('0' as int + d) as char
  }

  /** The decimal spelling of `n`, without leading zeros. */
  function IdOf(n: nat): (s: string)
    ensures |s| >= 1
    ensures n >= 10 ==> |s| >= 2
    ensures s[|s| - 1] == DigitChar(n % 10)
  {
    if n < 10 then [DigitChar(n)] else IdOf(n / 10) + [DigitChar(n % 10)]
  }

  /** Distinct counter values give distinct ids. */
  lemma {:induction false} IdOfInjective(a: nat, b: nat)
    requires IdOf(a) == IdOf(b)
    ensures a == b
  {
    var sa, sb := IdOf(a), IdOf(b);
    assert a % 10 == b % 10 by {
      assert DigitChar(a % 10) == sa[|sa| - 1] == sb[|sb| - 1] == DigitChar(b % 10);
    }
    if a >= 10 && b >= 10 {
      var pa, pb := IdOf(a / 10), IdOf(b / 10);
      assert sa == pa + [DigitChar(a % 10)];
      assert sb == pb + [DigitChar(b % 10)];
      assert pa == sa[..|sa| - 1] == sb[..|sb| - 1] == pb;
      IdOfInjective(a / 10, b / 10);
    }
  }

  /** The ids handed out between counter values `lo` (included) and `hi`. */
  ghost function IssuedBetween(lo: nat, hi: nat): set<string> {
    set i | lo <= i < hi :: IdOf(i)
  }

  /** Handing out the ids from `lo` to `hi` then one more adds exactly that one. */
  lemma IssuedBetweenNext(lo: nat, hi: nat)
    requires lo <= hi
    ensures IssuedBetween(lo, hi + 1) == IssuedBetween(lo, hi) + {IdOf(hi)}
  {
    assert forall s :: s in IssuedBetween(lo, hi + 1) ==> s in IssuedBetween(lo, hi) + {IdOf(hi)};
  }

  /** The supplier hands out `hi - lo` distinct ids between `lo` and `hi`. */
  lemma {:induction false} IssuedBetweenSize(lo: nat, hi: nat)
    requires lo <= hi
    ensures |IssuedBetween(lo, hi)| == hi - lo
    decreases hi - lo
  {
    if lo == hi {
      assert IssuedBetween(lo, hi) == {};
    } else {
      IssuedBetweenSize(lo, hi - 1);
      IssuedBetweenNext(lo, hi - 1);
      if IdOf(hi - 1) in IssuedBetween(lo, hi - 1) {
        var i :| lo <= i < hi - 1 && IdOf(i) == IdOf(hi - 1);
        IdOfInjective(i, hi - 1);
      }
    }
  }
}
