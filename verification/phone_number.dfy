/** The phone-number format of the contact schema: the regular expression `^\d{2,3}-\d+$`.
    In a JavaScript regular expression `\d` is always `[0-9]`, and without the `m` flag `^`
    and `$` anchor at the ends of the whole value, so the match must cover all of it.

    `Test` runs a deterministic automaton that accepts the same strings as the pattern;
    `IsPhoneNumber` is the reading of the pattern as "2 or 3 digits, a hyphen, one or more
    digits", and `AutomatonMatchesPattern` proves the two agree on every string. */
module PhoneNumber {

  predicate IsDigit(c: char) {
    '0' <= c <= '9'
  }

  predicate AllDigits(s: string) {
    forall i :: 0 <= i < |s| ==> IsDigit(s[i])
  }

  /** `s` is `k` digits, then `-`, then at least one digit, and nothing else. */
  predicate SplitsAt(s: string, k: nat) {
    k + 1 < |s| && AllDigits(s[..k]) && s[k] == '-' && AllDigits(s[k + 1..])
  }

  /** Reference reading of `^\d{2,3}-\d+$`. */
  predicate IsPhoneNumber(s: string) {
    SplitsAt(s, 2) || SplitsAt(s, 3)
  }

  /** The positions of the hyphens in `s`. */
  function Hyphens(s: string): set<nat> {
    set i: nat | i < |s| && s[i] == '-'
  }

  /** States of the automaton for `^\d{2,3}-\d+$`: how much of the pattern has been read. */
  datatype State =
    | Start         // nothing read
    | OneDigit      // one digit of `\d{2,3}`
    | TwoDigits     // two digits: `\d{2,3}` may stop here
    | ThreeDigits   // three digits: `-` must come next
    | Hyphen        // the `-`: `\d+` needs at least one digit
    | Subscriber    // inside `\d+`: the only accepting state
    | Dead          // no match is possible any more

  function Step(st: State, c: char): State {
    match st
    case Start => if IsDigit(c) then OneDigit else Dead
    case OneDigit => if IsDigit(c) then TwoDigits else Dead
    case TwoDigits => if IsDigit(c) then ThreeDigits else if c == '-' then Hyphen else Dead
    case ThreeDigits => if c == '-' then Hyphen else Dead
    case Hyphen => if IsDigit(c) then Subscriber else Dead
    case Subscriber => if IsDigit(c) then Subscriber else Dead
    case Dead => Dead
  }

  function Run(st: State, s: string): State
    decreases |s|
  {
    if s == [] then st else Run(Step(st, s[0]), s[1..])
  }

  /** `/^\d{2,3}-\d+$/.test(s)` */
  predicate Test(s: string): (b: bool)
    ensures b <==> IsPhoneNumber(s)
  {
    AutomatonMatchesPattern(s);
    Run(Start, s) == Subscriber
  }

  lemma {:induction false} RunDead(s: string)
    ensures Run(Dead, s) == Dead
    decreases |s|
  {
    if s != [] {
      RunDead(s[1..]);
    }
  }

  /** After a leading digit, the rest decides whether the whole string is digits. */
  lemma AllDigitsAfterDigit(s: string)
    requires s != [] && IsDigit(s[0])
    ensures AllDigits(s) <==> AllDigits(s[1..])
  {
    if AllDigits(s[1..]) {
      forall i | 0 <= i < |s| ensures IsDigit(s[i]) {
        if i > 0 { assert s[i] == s[1..][i - 1]; }
      }
    }
  }

  lemma {:induction false} RunSubscriber(s: string)
    ensures Run(Subscriber, s) == Subscriber <==> AllDigits(s)
    decreases |s|
  {
    if s != [] {
      RunSubscriber(s[1..]);
      if IsDigit(s[0]) {
        AllDigitsAfterDigit(s);
      } else {
        RunDead(s[1..]);
      }
    }
  }

  lemma RunHyphen(s: string)
    ensures Run(Hyphen, s) == Subscriber <==> |s| >= 1 && AllDigits(s)
  {
    if s != [] {
      RunSubscriber(s[1..]);
      if IsDigit(s[0]) {
        AllDigitsAfterDigit(s);
      } else {
        RunDead(s[1..]);
      }
    }
  }

  lemma RunThreeDigits(s: string)
    ensures Run(ThreeDigits, s) == Subscriber <==> |s| >= 2 && s[0] == '-' && AllDigits(s[1..])
  {
    if s != [] {
      RunHyphen(s[1..]);
      if s[0] != '-' {
        RunDead(s[1..]);
      }
    }
  }

  lemma RunTwoDigits(s: string)
    ensures Run(TwoDigits, s) == Subscriber <==>
      (|s| >= 2 && s[0] == '-' && AllDigits(s[1..])) ||
      (|s| >= 3 && IsDigit(s[0]) && s[1] == '-' && AllDigits(s[2..]))
  {
    if s != [] {
      if IsDigit(s[0]) {
        RunThreeDigits(s[1..]);
        if |s| >= 2 {
          assert s[1..][1..] == s[2..];
        }
      } else if s[0] == '-' {
        RunHyphen(s[1..]);
      } else {
        RunDead(s[1..]);
      }
    }
  }

  /** The automaton, run from its initial state, accepts exactly the strings the pattern
      describes. */
  lemma AutomatonMatchesPattern(s: string)
    ensures Run(Start, s) == Subscriber <==> IsPhoneNumber(s)
  {
    if s == [] {
    } else if !IsDigit(s[0]) {
      RunDead(s[1..]);
      assert !SplitsAt(s, 2) by {
        if |s| >= 2 { assert s[0] == s[..2][0]; }
      }
      assert !SplitsAt(s, 3) by {
        if |s| >= 3 { assert s[0] == s[..3][0]; }
      }
    } else if |s| == 1 {
      assert Run(Start, s) == Run(OneDigit, s[1..]) && s[1..] == [];
    } else if !IsDigit(s[1]) {
      assert Run(Start, s) == Run(OneDigit, s[1..]);
      assert Run(OneDigit, s[1..]) == Run(Dead, s[2..]) by {
        assert s[1..][1..] == s[2..];
      }
      RunDead(s[2..]);
      assert !SplitsAt(s, 2) by {
        assert s[1] == s[..2][1];
      }
      assert !SplitsAt(s, 3) by {
        if |s| >= 3 { assert s[1] == s[..3][1]; }
      }
    } else {
      RunTwoDigits(s[2..]);
      assert Run(Start, s) == Run(TwoDigits, s[2..]) by {
        assert Run(Start, s) == Run(OneDigit, s[1..]);
        assert s[1..][1..] == s[2..];
      }
      if |s| >= 3 {
        assert s[2..][1..] == s[3..];
      }
      if |s| >= 4 {
        assert s[2..][2..] == s[4..];
      }
      if SplitsAt(s, 3) {
        assert s[2] == s[..3][2];
      }
      if |s| >= 4 && s[2] == '-' && AllDigits(s[3..]) {
        assert AllDigits(s[..2]);
      }
      if |s| >= 5 && IsDigit(s[2]) && s[3] == '-' && AllDigits(s[4..]) {
        assert AllDigits(s[..3]);
      }
    }
  }

  /** An accepted number is at least four characters long and holds exactly one hyphen,
      at index 2 or 3. */
  lemma AcceptedShape(s: string)
    requires Test(s)
    ensures |s| >= 4
    ensures Hyphens(s) == {2} || Hyphens(s) == {3}
  {
    var k: nat := if SplitsAt(s, 2) then 2 else 3;
    assert SplitsAt(s, k);
    forall i: nat | i < |s| && i != k ensures s[i] != '-' {
      if i < k {
        assert s[i] == s[..k][i];
      } else {
        assert s[i] == s[k + 1..][i - k - 1];
      }
    }
    assert Hyphens(s) == {k};
  }

  /** A two-digit area code. */
  lemma AcceptsTwoDigitPrefix()
    ensures Test("09-1234567")
  {
  }

  /** A three-digit area code. */
  lemma AcceptsThreeDigitPrefix()
    ensures Test("040-123456")
  {
  }

  /** Inputs that the `{2,3}` bound, the `+`, the anchors and `\d` must each reject. */
  lemma RejectedExamples()
    ensures !Test("1-22") && !Test("1234-5") && !Test("12-") && !Test("12-34-56") && !Test("ab-123")
  {
  }
}
