/** Counterpart-identity (RUC) clean-up. A RUC read as a float renders as
    "80003296.0"; the code strips the artefact with Python's
    `str.replace(".0", "")`, which removes every non-overlapping occurrence,
    scanning left to right, not only a trailing one. */
module Ruc {

  /** `s` contains the substring ".0". */
  predicate HasDotZero(s: string) {
    |s| >= 2 && ((s[0] == '.' && s[1] == '0') || HasDotZero(s[1..]))
  }

  /** `s` contains the substring "..". */
  predicate HasDoubleDot(s: string) {
    |s| >= 2 && ((s[0] == '.' && s[1] == '.') || HasDoubleDot(s[1..]))
  }

  predicate IsDigits(s: string) {
    forall i :: 0 <= i < |s| ==> '0' <= s[i] <= '9'
  }

  /** `s.replace(".0", "")`. */
  function Normalize(s: string): (r: string)
    ensures |r| <= |s|
    ensures !HasDotZero(s) ==> r == s
    decreases |s|
  {
    if |s| < 2 then s
    else if s[0] == '.' && s[1] == '0' then Normalize(s[2..])
    else [s[0]] + Normalize(s[1..])
  }

  /** Every occurrence of ".0" is removed: cutting the input at any
      occurrence normalises the two sides independently. */
  lemma {:induction false} NormalizeRemovesEvery(a: string, b: string)
    ensures Normalize(a + ".0" + b) == Normalize(a) + Normalize(b)
    decreases |a|
  {
    if |a| == 0 {
      RemovesAtStart(b);
    } else if |a| == 1 {
      RemovesAfterOne(a[0], b);
      assert a == [a[0]];
    } else if a[0] == '.' && a[1] == '0' {
      var s := a + ".0" + b;
      assert s[0] == '.' && s[1] == '0';
      assert s[2..] == a[2..] + ".0" + b;
      NormalizeRemovesEvery(a[2..], b);
      NormalizeUnfold(s);
      NormalizeUnfold(a);
    } else {
      var s := a + ".0" + b;
      assert s[0] == a[0] && s[1] == a[1];
      assert s[1..] == a[1..] + ".0" + b;
      NormalizeRemovesEvery(a[1..], b);
      NormalizeUnfold(s);
      NormalizeUnfold(a);
    }
  }

  lemma {:induction false} RemovesAtStart(b: string)
    ensures Normalize("" + ".0" + b) == Normalize("") + Normalize(b)
  {
    var s := "" + ".0" + b;
    assert s[2..] == b;
    NormalizeUnfold(s);
  }

  lemma {:induction false} RemovesAfterOne(c: char, b: string)
    ensures Normalize([c] + ".0" + b) == Normalize([c]) + Normalize(b)
  {
    var s := [c] + ".0" + b;
    assert s[0] == c && s[1] == '.';
    assert s[1..] == ".0" + b;
    NormalizeUnfold(s);
    RemovesAtStart(b);
    assert "" + ".0" + b == ".0" + b;
  }

  /** One step of the left-to-right scan. */
  lemma {:induction false} NormalizeUnfold(s: string)
    requires |s| >= 2
    ensures s[0] == '.' && s[1] == '0' ==> Normalize(s) == Normalize(s[2..])
    ensures !(s[0] == '.' && s[1] == '0') ==> Normalize(s) == [s[0]] + Normalize(s[1..])
  {
  }

  lemma {:induction false} DigitsHaveNoDotZero(d: string)
    requires IsDigits(d)
    ensures !HasDotZero(d) && !HasDoubleDot(d)
    decreases |d|
  {
    if |d| >= 2 {
      DigitsHaveNoDotZero(d[1..]);
    }
  }

  /** A float-rendered RUC loses exactly its ".0" suffix. */
  lemma {:induction false} DigitsWithFloatSuffix(d: string)
    requires IsDigits(d)
    ensures Normalize(d + ".0") == d
  {
    DigitsHaveNoDotZero(d);
    NormalizeRemovesEvery(d, "");
    assert d + ".0" + "" == d + ".0";
  }

  /** A string without ".." normalises to one without ".0", so normalising
      it again changes nothing. */
  lemma {:induction false} NormalizeIdempotentWithoutDoubleDot(s: string)
    requires !HasDoubleDot(s)
    ensures !HasDotZero(Normalize(s))
    ensures Normalize(Normalize(s)) == Normalize(s)
    decreases |s|
  {
    if |s| < 2 {
    } else if s[0] == '.' && s[1] == '0' {
      NoDoubleDotSuffix(s, 2);
      NormalizeIdempotentWithoutDoubleDot(s[2..]);
    } else {
      var t := s[1..];
      NoDoubleDotSuffix(s, 1);
      NormalizeIdempotentWithoutDoubleDot(t);
      var r := [s[0]] + Normalize(t);
      assert r[1..] == Normalize(t);
      if s[0] == '.' {
        assert t[0] == s[1] && t[0] != '0' && t[0] != '.';
        assert Normalize(t)[0] == t[0];
      }
    }
  }

  lemma {:induction false} NoDoubleDotSuffix(s: string, k: nat)
    requires k <= |s| && !HasDoubleDot(s)
    ensures !HasDoubleDot(s[k..])
    decreases k
  {
    if k > 0 {
      NoDoubleDotSuffix(s, k - 1);
      assert s[k - 1..][1..] == s[k..];
    }
  }

  /** Normalising is not idempotent in general: removing one ".0" can bring
      another ".0" together. */
  lemma NormalizeNotIdempotent()
    ensures Normalize("..00") == ".0"
    ensures Normalize(Normalize("..00")) == ""
  {
    assert "..00"[1..] == ".00";
    assert ".00"[2..] == "0";
    assert ".0"[2..] == "";
  }
}
