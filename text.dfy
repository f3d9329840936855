/** String helpers with the meaning of the JavaScript built-ins the source calls. */
module Text {
  import opened Wrappers

  /** `t` occurs in `s` starting at index `i`. */
  predicate OccursAt(s: string, t: string, i: int) {
    0 <= i && i + |t| <= |s| && s[i..i + |t|] == t
  }

  /** `s.indexOf(t, from)`: the first index at or after `from` where `t` occurs. */
  function IndexOf(s: string, t: string, from: nat): (r: Option<nat>)
    decreases |s| - from
    ensures r.Some? ==> from <= r.value && OccursAt(s, t, r.value)
    ensures forall j :: from <= j && (r.None? || j < r.value) ==> !OccursAt(s, t, j)
  {
    if from + |t| > |s| then None
    else if s[from..from + |t|] == t then Some(from)
    else IndexOf(s, t, from + 1)
  }

  /** `t` occurs in `s` at `from` or later. */
  predicate OccursFrom(s: string, t: string, from: nat)
    decreases |s| - from
  {
    from + |t| <= |s| && (s[from..from + |t|] == t || OccursFrom(s, t, from + 1))
  }

  /** `s.indexOf(t) > -1`. */
  predicate Contains(s: string, t: string) {
    OccursFrom(s, t, 0)
  }

  lemma {:induction false} OccursFromMeaning(s: string, t: string, from: nat)
    ensures OccursFrom(s, t, from) <==> exists i :: from <= i && OccursAt(s, t, i)
    ensures OccursFrom(s, t, from) <==> IndexOf(s, t, from).Some?
    decreases |s| - from
  {
    if from + |t| <= |s| {
      OccursFromMeaning(s, t, from + 1);
      if s[from..from + |t|] == t {
        assert OccursAt(s, t, from);
      }
      if exists i :: from + 1 <= i && OccursAt(s, t, i) {
        var i :| from + 1 <= i && OccursAt(s, t, i);
        assert from <= i;
      }
      if exists i :: from <= i && OccursAt(s, t, i) {
        var i :| from <= i && OccursAt(s, t, i);
        assert i == from || from + 1 <= i;
      }
    }
  }

  /** `s.indexOf(t) > -1` holds exactly when `t` occurs somewhere in `s`. */
  lemma ContainsMeaning(s: string, t: string)
    ensures Contains(s, t) <==> exists i :: OccursAt(s, t, i)
    ensures Contains(s, t) <==> IndexOf(s, t, 0).Some?
  {
    OccursFromMeaning(s, t, 0);
  }

  lemma ContainsLength(s: string, t: string)
    requires Contains(s, t)
    ensures |t| <= |s|
  {
  }

  /** A string lacking one of the characters of `t` does not contain `t`. */
  lemma {:induction false} MissingCharNotContained(s: string, t: string, c: char, from: nat)
    requires c in t && c !in s
    ensures !OccursFrom(s, t, from)
    decreases |s| - from
  {
    if from + |t| <= |s| {
      var k :| 0 <= k < |t| && t[k] == c;
      assert s[from..from + |t|][k] == s[from + k];
      assert s[from + k] in s;
      MissingCharNotContained(s, t, c, from + 1);
    }
  }

  /** A one-character occurrence is exactly a position holding that character. */
  lemma OccursAtChar(s: string, c: char, i: int)
    ensures OccursAt(s, [c], i) <==> 0 <= i < |s| && s[i] == c
  {
    if 0 <= i < |s| && s[i] == c {
      assert s[i..i + 1] == [c];
    }
  }

  /** `s.split(d)` for a one-character separator `d`. */
  function Split(s: string, d: char): (r: seq<string>)
    decreases |s|
  {
    match IndexOf(s, [d], 0)
    case None => [s]
    case Some(k) => [s[..k]] + Split(s[k + 1..], d)
  }

  /** `parts.join(d)`. */
  function JoinWith(parts: seq<string>, d: char): string {
    if |parts| == 0 then ""
    else if |parts| == 1 then parts[0]
    else parts[0] + [d] + JoinWith(parts[1..], d)
  }

  /** There is always at least one piece and no piece holds the separator. */
  lemma {:induction false} SplitPieces(s: string, d: char)
    ensures |Split(s, d)| >= 1
    ensures forall i :: 0 <= i < |Split(s, d)| ==> d !in Split(s, d)[i]
    decreases |s|
  {
    var found := IndexOf(s, [d], 0);
    if found.None? {
      forall i | 0 <= i < |s|
        ensures s[i] != d
      {
        OccursAtChar(s, d, i);
      }
    } else {
      var k := found.value;
      var pieces, more := Split(s, d), Split(s[k + 1..], d);
      SplitPieces(s[k + 1..], d);
      assert pieces == [s[..k]] + more;
      assert d !in s[..k] by {
        forall i | 0 <= i < k
          ensures s[..k][i] != d
        {
          OccursAtChar(s, d, i);
        }
      }
      forall i | 0 <= i < |pieces|
        ensures d !in pieces[i]
      {
        if i > 0 {
          assert pieces[i] == more[i - 1];
        }
      }
    }
  }

  /** Joining the pieces back with the separator gives the input. */
  lemma {:induction false} SplitJoinBack(s: string, d: char)
    ensures JoinWith(Split(s, d), d) == s
    decreases |s|
  {
    var found := IndexOf(s, [d], 0);
    if found.Some? {
      var k := found.value;
      OccursAtChar(s, d, k);
      var rest := s[k + 1..];
      var pieces, more := Split(s, d), Split(rest, d);
      SplitJoinBack(rest, d);
      SplitPieces(rest, d);
      assert pieces[0] == s[..k] && pieces[1..] == more;
      assert JoinWith(pieces, d) == s[..k] + [d] + JoinWith(more, d);
      assert s == s[..k] + [d] + rest;
    }
  }

  /** Splitting never loses text: joining the pieces back gives the input,
      there is always at least one piece and no piece holds the separator. */
  lemma SplitJoin(s: string, d: char)
    ensures |Split(s, d)| >= 1
    ensures JoinWith(Split(s, d), d) == s
    ensures forall i :: 0 <= i < |Split(s, d)| ==> d !in Split(s, d)[i]
  {
    SplitPieces(s, d);
    SplitJoinBack(s, d);
  }

  /** The text after the last `c` in `s` (all of `s` when there is none). */
  function AfterLast(s: string, c: char): (r: string)
    ensures c !in r
    ensures |r| <= |s| && r == s[|s| - |r|..]
  {
    if |s| == 0 then ""
    else if s[|s| - 1] == c then ""
    else AfterLast(s[..|s| - 1], c) + [s[|s| - 1]]
  }

  /** Without any `c`, the text after the last `c` is the whole string. */
  lemma {:induction false} AfterLastAbsent(s: string, c: char)
    requires c !in s
    ensures AfterLast(s, c) == s
  {
    if |s| > 0 {
      var init, last := s[..|s| - 1], s[|s| - 1];
      assert last != c;
      assert c !in init by {
        forall i | 0 <= i < |init| ensures init[i] != c {
          assert init[i] == s[i];
        }
      }
      calc {
        AfterLast(s, c);
        AfterLast(init, c) + [last];
        { AfterLastAbsent(init, c); }
        init + [last];
        s;
      }
    }
  }

  /** Whatever precedes the last `c`, the text after it is recovered. */
  lemma {:induction false} AfterLastAppend(prefix: string, c: char, tail: string)
    requires c !in tail
    ensures AfterLast(prefix + [c] + tail, c) == tail
    decreases |tail|
  {
    var s := prefix + [c] + tail;
    if |tail| == 0 {
      assert s[|s| - 1] == c;
    } else {
      var init, last := tail[..|tail| - 1], tail[|tail| - 1];
      assert tail == init + [last];
      AfterLastAppend(prefix, c, init);
      assert s == (prefix + [c] + init) + [last];
      assert s[..|s| - 1] == prefix + [c] + init;
    }
  }

  predicate IsDigit(c: char) {
    '0' <= c <= '9'
  }

  predicate AllDigits(s: string) {
    forall i :: 0 <= i < |s| ==> IsDigit(s[i])
  }

  function DigitChar(d: nat): (c: char)
    requires d < 10
    ensures IsDigit(c)
  {
    ('0' as int + d) as char
  }

  function DigitValue(c: char): (d: nat)
    requires IsDigit(c)
    ensures d < 10 && DigitChar(d) == c
  {
    (c as int - '0' as int) as nat
  }

  /** The decimal numeral JavaScript prints for a non-negative integer (`"" + n`). */
  function NatToDecimal(n: nat): (r: string)
    ensures |r| >= 1 && AllDigits(r)
  {
    if n < 10 then [DigitChar(n)] else NatToDecimal(n / 10) + [DigitChar(n % 10)]
  }

  /** The value of a string of decimal digits. */
  function DecimalValue(s: string): nat
    requires AllDigits(s)
  {
    if |s| == 0 then 0 else DecimalValue(s[..|s| - 1]) * 10 + DigitValue(s[|s| - 1])
  }

  /** Printing a number and reading it back gives the number. */
  lemma {:induction false} DecimalRoundTrip(n: nat)
    ensures DecimalValue(NatToDecimal(n)) == n
  {
    var s := NatToDecimal(n);
    if n >= 10 {
      DecimalRoundTrip(n / 10);
      assert s[..|s| - 1] == NatToDecimal(n / 10);
    }
  }
}
