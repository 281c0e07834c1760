/**
 The few pieces of Rust's `str` and integer parsing that the tracing middleware relies on:
 `split` / `split_terminator` on a character, `replace(pat, "")`, and `u64::from_str`.
 Each is given with an independent partner (join, decimal rendering) and the round trip
 between the two.
 */
module RustStr {
  import opened Wrappers

  const U64_MAX: nat := 0xFFFF_FFFF_FFFF_FFFF

  // ---------------------------------------------------------------------------
  // split / join

  /** `s.split(c)`: the pieces between occurrences of `c`; always at least one piece. */
  function Split(s: string, c: char): (pieces: seq<string>)
    ensures |pieces| >= 1
  {
    if s == [] then [""]
    else
      var rest := Split(s[1..], c);
      if s[0] == c then [""] + rest
      else [[s[0]] + rest[0]] + rest[1..]
  }

  /** `pieces.join(c)`: the pieces with `c` between neighbours. */
  function Join(pieces: seq<string>, c: char): string {
    if pieces == [] then ""
    else if |pieces| == 1 then pieces[0]
    else pieces[0] + [c] + Join(pieces[1..], c)
  }

  /** `s.split_terminator(c)`: like `split`, except that an empty last piece is skipped. */
  function SplitTerminator(s: string, c: char): (pieces: seq<string>)
    ensures |pieces| <= |Split(s, c)|
    ensures Split(s, c)[|Split(s, c)| - 1] == "" ==> pieces + [""] == Split(s, c)
    ensures Split(s, c)[|Split(s, c)| - 1] != "" ==> pieces == Split(s, c)
  {
    var all := Split(s, c);
    if all[|all| - 1] == "" then all[..|all| - 1] else all
  }

  /** Joining the pieces of a split gives the string back. */
  lemma {:induction false} JoinSplit(s: string, c: char)
    ensures Join(Split(s, c), c) == s
  {
    if s != [] {
      var rest := Split(s[1..], c);
      JoinSplit(s[1..], c);
      if s[0] == c {
        assert ([""] + rest)[1..] == rest;
      } else if |rest| == 1 {
      } else {
        var pieces := [[s[0]] + rest[0]] + rest[1..];
        assert pieces[1..] == rest[1..];
        assert Join(rest, c) == rest[0] + [c] + Join(rest[1..], c);
        assert s == [s[0]] + s[1..];
      }
    }
  }

  /** No piece of a split contains the separator. */
  lemma {:induction false} SplitPiecesAvoidSeparator(s: string, c: char)
    ensures forall p :: p in Split(s, c) ==> c !in p
  {
    if s != [] {
      SplitPiecesAvoidSeparator(s[1..], c);
      var rest := Split(s[1..], c);
      if s[0] != c {
        assert rest[0] in rest;
        forall p | p in Split(s, c) ensures c !in p {
          if p != [s[0]] + rest[0] {
            assert p in rest[1..];
          }
        }
      }
    }
  }

  /** Splitting `p + t` where `p` is free of the separator: `p` is glued onto the first piece of `t`. */
  lemma {:induction false} SplitAfterPlainPrefix(p: string, t: string, c: char)
    requires c !in p
    ensures Split(p + t, c) == [p + Split(t, c)[0]] + Split(t, c)[1..]
  {
    if p != [] {
      assert (p + t)[1..] == p[1..] + t;
      SplitAfterPlainPrefix(p[1..], t, c);
      var rest := Split(p[1..] + t, c);
      assert rest[0] == p[1..] + Split(t, c)[0];
      assert rest[1..] == Split(t, c)[1..];
      assert [p[0]] + (p[1..] + Split(t, c)[0]) == p + Split(t, c)[0];
    } else {
      assert p + t == t;
      assert p + Split(t, c)[0] == Split(t, c)[0];
      assert Split(t, c) == [Split(t, c)[0]] + Split(t, c)[1..];
    }
  }

  /** Splitting a separator-free string gives that string alone. */
  lemma SplitPlain(p: string, c: char)
    requires c !in p
    ensures Split(p, c) == [p]
  {
    SplitAfterPlainPrefix(p, "", c);
    assert p + "" == p;
  }

  /** Splitting `p + c + t` where `p` is free of the separator: `p`, then the pieces of `t`. */
  lemma SplitAtFirstSeparator(p: string, t: string, c: char)
    requires c !in p
    ensures Split(p + [c] + t, c) == [p] + Split(t, c)
  {
    assert p + [c] + t == p + ([c] + t);
    SplitAfterPlainPrefix(p, [c] + t, c);
    assert ([c] + t)[1..] == t;
    assert Split([c] + t, c) == [""] + Split(t, c);
    assert p + "" == p;
  }

  /** Splitting a join of separator-free pieces gives the pieces back. */
  lemma {:induction false} SplitJoin(pieces: seq<string>, c: char)
    requires |pieces| >= 1
    requires forall p :: p in pieces ==> c !in p
    ensures Split(Join(pieces, c), c) == pieces
  {
    if |pieces| == 1 {
      SplitPlain(pieces[0], c);
    } else {
      assert pieces[0] in pieces;
      SplitJoin(pieces[1..], c);
      SplitAtFirstSeparator(pieces[0], Join(pieces[1..], c), c);
      assert [pieces[0]] + pieces[1..] == pieces;
    }
  }

  // ---------------------------------------------------------------------------
  // replace(pat, "")

  /** `pat` occurs in `s` starting at index `i`. */
  predicate OccursAt(s: string, pat: string, i: int) {
    0 <= i && i + |pat| <= |s| && s[i..i + |pat|] == pat
  }

  /**
   `s.replace(pat, "")`: every occurrence of `pat`, found left to right without overlap,
   is deleted. Replacing the empty pattern by the empty string leaves `s` as it is.
   */
  function RemoveAll(s: string, pat: string): (r: string)
    ensures |r| <= |s|
    decreases |s|
  {
    if pat == [] || |s| < |pat| then s
    else if s[..|pat|] == pat then RemoveAll(s[|pat|..], pat)
    else [s[0]] + RemoveAll(s[1..], pat)
  }

  /** A string in which the pattern does not occur is left unchanged. */
  lemma {:induction false} RemoveAllAbsent(s: string, pat: string)
    requires forall i :: 0 <= i <= |s| - |pat| ==> !OccursAt(s, pat, i)
    ensures RemoveAll(s, pat) == s
    decreases |s|
  {
    if pat != [] && |s| >= |pat| {
      assert !OccursAt(s, pat, 0);
      assert s[0..|pat|] == s[..|pat|];
      forall i | 0 <= i <= |s[1..]| - |pat| ensures !OccursAt(s[1..], pat, i) {
        assert !OccursAt(s, pat, i + 1);
        assert s[1..][i..i + |pat|] == s[i + 1..i + 1 + |pat|];
      }
      RemoveAllAbsent(s[1..], pat);
      assert s == [s[0]] + s[1..];
    }
  }

  /** Removing a leading `pat` from `pat + t`, where `pat` does not occur in `t`, leaves `t`. */
  lemma RemoveAllLeading(pat: string, t: string)
    requires pat != []
    requires forall i :: 0 <= i <= |t| - |pat| ==> !OccursAt(t, pat, i)
    ensures RemoveAll(pat + t, pat) == t
  {
    var s := pat + t;
    assert s[..|pat|] == pat;
    assert s[|pat|..] == t;
    RemoveAllAbsent(t, pat);
  }

  // ---------------------------------------------------------------------------
  // u64::from_str and its decimal rendering

  predicate IsDigit(ch: char) {
    '0' <= ch <= '9'
  }

  predicate AllDigits(s: string) {
    forall i :: 0 <= i < |s| ==> IsDigit(s[i])
  }

  /** The number written by a string of decimal digits, most significant first. */
  function DigitsValue(s: string): nat
    requires AllDigits(s)
  {
    if s == [] then 0
    else 10 * DigitsValue(s[..|s| - 1]) + (s[|s| - 1] as int - '0' as int)
  }

  /**
   `s.parse::<u64>()`: an optional leading `+`, then at least one decimal digit, and a value
   that fits in 64 bits. Rust accumulates with checked arithmetic; since every prefix's value
   is at most the whole value, that overflows exactly when the whole value exceeds `U64_MAX`.
   */
  function ParseU64(s: string): (r: Option<nat>)
    ensures r.Some? ==> r.value <= U64_MAX
    ensures r.Some? ==> (|s| >= 1 && AllDigits(s)) || (|s| >= 2 && s[0] == '+' && AllDigits(s[1..]))
  {
    var digits := if |s| > 0 && s[0] == '+' then s[1..] else s;
    if digits != [] && AllDigits(digits) && DigitsValue(digits) <= U64_MAX then
      Some(DigitsValue(digits))
    else
      None
  }

  function DigitChar(d: nat): char
    requires d < 10
  {
    ('0' as int + d) as char
  }

  /** The decimal rendering of `n` (Rust's `Display` for unsigned integers). */
  function Decimal(n: nat): (s: string)
    ensures s != []
  {
    if n < 10 then [DigitChar(n)] else Decimal(n / 10) + [DigitChar(n % 10)]
  }

  /** The decimal rendering is made of digits and denotes `n`. */
  lemma {:induction false} DecimalDenotes(n: nat)
    ensures AllDigits(Decimal(n))
    ensures DigitsValue(Decimal(n)) == n
  {
    var s := Decimal(n);
    if n >= 10 {
      DecimalDenotes(n / 10);
      assert s[..|s| - 1] == Decimal(n / 10);
    }
  }

  /** Parsing the decimal rendering of a 64-bit value gives the value back, with or without `+`. */
  lemma ParseDecimal(n: nat)
    requires n <= U64_MAX
    ensures ParseU64(Decimal(n)) == Some(n)
    ensures ParseU64("+" + Decimal(n)) == Some(n)
  {
    DecimalDenotes(n);
    assert ("+" + Decimal(n))[1..] == Decimal(n);
  }

  /**
   Every well-formed input is judged by its value alone: an optional `+` and one or more digits
   parse to the value they denote when it fits in 64 bits, and are rejected otherwise.
   */
  lemma ParseU64Accepts(sign: string, digits: string)
    requires sign == "" || sign == "+"
    requires digits != [] && AllDigits(digits)
    ensures ParseU64(sign + digits) ==
      if DigitsValue(digits) <= U64_MAX then Some(DigitsValue(digits)) else None
  {
    if sign == "+" {
      assert (sign + digits)[1..] == digits;
    } else {
      assert sign + digits == digits;
    }
  }

  /** A run of zeros denotes zero. */
  lemma {:induction false} ZerosValue(zeros: string)
    requires forall i :: 0 <= i < |zeros| ==> zeros[i] == '0'
    ensures AllDigits(zeros) && DigitsValue(zeros) == 0
  {
    if zeros != [] {
      ZerosValue(zeros[..|zeros| - 1]);
    }
  }

  /** Leading zeros do not change the value of a digit string. */
  lemma {:induction false} LeadingZerosValue(zeros: string, digits: string)
    requires forall i :: 0 <= i < |zeros| ==> zeros[i] == '0'
    requires AllDigits(digits)
    ensures AllDigits(zeros + digits) && DigitsValue(zeros + digits) == DigitsValue(digits)
  {
    ZerosValue(zeros);
    var s := zeros + digits;
    assert AllDigits(s) by {
      forall i | 0 <= i < |s| ensures IsDigit(s[i]) {
        if i >= |zeros| {
          assert s[i] == digits[i - |zeros|];
        }
      }
    }
    if digits == [] {
      assert s == zeros;
    } else {
      var init := digits[..|digits| - 1];
      LeadingZerosValue(zeros, init);
      assert s[..|s| - 1] == zeros + init;
      assert s[|s| - 1] == digits[|digits| - 1];
    }
  }

  /** A 64-bit value written with any number of leading zeros, with or without `+`, parses to itself. */
  lemma ParseLeadingZeros(sign: string, zeros: string, n: nat)
    requires sign == "" || sign == "+"
    requires forall i :: 0 <= i < |zeros| ==> zeros[i] == '0'
    requires n <= U64_MAX
    ensures ParseU64(sign + (zeros + Decimal(n))) == Some(n)
  {
    DecimalDenotes(n);
    LeadingZerosValue(zeros, Decimal(n));
    ParseU64Accepts(sign, zeros + Decimal(n));
  }

  /** A number beyond 64 bits does not parse. */
  lemma ParseDecimalOverflow(n: nat)
    requires n > U64_MAX
    ensures ParseU64(Decimal(n)) == None
  {
    DecimalDenotes(n);
  }
}
