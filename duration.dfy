/** The `M:SS` duration text both audio adapters print. */
module Duration {
  import opened JsStrings

  /** `${Math.floor(t / 60)}:${(t % 60).toString().padStart(2, '0')}` for a
      whole number of seconds `t` (Dafny's `/` by a positive divisor is the
      floor; `JsRem` is JavaScript's `%`). */
  function MinutesSeconds(t: int): string {
    IntToDecimal(t / 60) + ":" + PadStart(IntToDecimal(JsRem(t, 60)), 2, '0')
  }

  /** The digits of a two-character seconds field and the value they denote. */
  predicate SecondsField(f: string, secs: nat) {
    |f| == 2 && AllDigits(f) && DecimalValue(f) == secs
  }

  /** A seconds value below 60, padded to two places, is a two-digit field. */
  lemma PaddedSeconds(n: nat)
    requires n < 60
    ensures SecondsField(PadStart(NatToDecimal(n), 2, '0'), n)
  {
    var s := NatToDecimal(n);
    var f := PadStart(s, 2, '0');
    DecimalRoundTrip(n);
    if n < 10 {
      assert f == ['0'] + s;
      assert f[..1] == ['0'] && DecimalValue(f[..1]) == 0 by {
        assert f[..1][..0] == [];
      }
      assert DecimalValue(f) == DecimalValue(s) by {
        assert s[..0] == [];
      }
    } else {
      assert |s| == 2 && f == s;
    }
  }

  /** Where the colon and the seconds field sit in `m + ":" + f`. */
  lemma ColonJoin(m: string, f: string)
    requires |m| >= 1 && |f| == 2
    ensures var r := m + ":" + f;
            |r| >= 4 && r[|r| - 3] == ':' && r[..|r| - 3] == m && r[|r| - 2..] == f
  {
    var r := m + ":" + f;
    assert r[..|r| - 3] == m;
    assert r[|r| - 2..] == f;
  }

  /** With a non-negative count, `%` is Dafny's remainder. */
  lemma UnfoldMinutesSeconds(t: int)
    requires t >= 0
    ensures MinutesSeconds(t) == NatToDecimal(t / 60) + ":" + PadStart(NatToDecimal(t % 60), 2, '0')
  {
  }

  /** `r` is the minutes of `t` in decimal, a colon, and exactly two
      digits holding a value below 60; reading the two numbers back gives
      `t` again. */
  predicate IsMinutesSecondsOf(r: string, t: nat) {
    |r| >= 4 && r[|r| - 3] == ':' &&
            r[..|r| - 3] == NatToDecimal(t / 60) &&
            SecondsField(r[|r| - 2..], t % 60) && t % 60 < 60 &&
            DecimalValue(r[..|r| - 3]) * 60 + DecimalValue(r[|r| - 2..]) == t
  }

  /** For a non-negative number of seconds the text has the `M:SS` shape. */
  lemma MinutesSecondsShape(t: int)
    requires t >= 0
    ensures IsMinutesSecondsOf(MinutesSeconds(t), t)
  {
    var q, rem := t / 60, t % 60;
    var m := NatToDecimal(q);
    var f := PadStart(NatToDecimal(rem), 2, '0');
    DecimalRoundTrip(q);
    PaddedSeconds(rem);
    ColonJoin(m, f);
    UnfoldMinutesSeconds(t);
    var r := m + ":" + f;
    assert DecimalValue(r[..|r| - 3]) == q;
    assert DecimalValue(r[|r| - 2..]) == rem;
  }
}
