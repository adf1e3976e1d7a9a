/**
 * The string primitives the launcher relies on: `%d` rendering of an integer,
 * the single-space joining that `"%s %d %s ..."` formats perform, and the
 * `strSplit(s, ' ')` that turns the command line back into an argument vector.
 * `zsys_sprintf` and `strSplit` are not part of this model; they are specified here.
 * The split is taken to behave like `strtok`: runs of separators produce no
 * empty fields.
 */
module Text {
  import opened Wrappers

  /** The character of decimal digit `d`. */
  function DigitChar(d: nat): (c: char)
    requires d < 10
    ensures '0' <= c <= '9' && c as int - '0' as int == d
  {
    ('0' as int + d) as char
  }

  predicate IsDigits(s: string) {
    forall i :: 0 <= i < |s| ==> '0' <= s[i] <= '9'
  }

  /** A token survives a split on `sep` unchanged: it is not empty and holds no `sep`. */
  predicate IsToken(t: string, sep: char) {
    |t| > 0 && sep !in t
  }

  /** `%d` of a non-negative value: its decimal digits, most significant first. */
  function NatToDecimal(n: nat): (s: string)
    ensures |s| > 0 && IsDigits(s)
    decreases n
  {
    if n < 10 then [DigitChar(n)] else NatToDecimal(n / 10) + [DigitChar(n % 10)]
  }

  /** The value a string of decimal digits denotes. */
  function DecimalValue(s: string): (v: nat)
    requires IsDigits(s)
  {
    if s == [] then 0 else 10 * DecimalValue(s[..|s| - 1]) + (s[|s| - 1] as int - '0' as int)
  }

  /** `%d` of any int: a minus sign for negative values, then the digits. */
  function FormatInt(x: int): (s: string)
    ensures IsToken(s, ' ')
  {
    var digits := NatToDecimal(if x < 0 then -x else x);
    assert forall i :: 0 <= i < |digits| ==> digits[i] != ' ';
    if x < 0 then "-" + digits else digits
  }

  /** Reads back what `%d` printed; None for anything that is not an optional
      minus sign followed by at least one digit. */
  function ParseInt(s: string): (x: Option<int>) {
    if |s| > 1 && s[0] == '-' && IsDigits(s[1..]) then
      var magnitude: int := DecimalValue(s[1..]);
      Some(-magnitude)
    else if |s| > 0 && IsDigits(s) then Some(DecimalValue(s))
    else None
  }

  lemma {:induction false} DecimalRoundTrip(n: nat)
    ensures DecimalValue(NatToDecimal(n)) == n
  {
    if n >= 10 {
      var s := NatToDecimal(n);
      assert s[..|s| - 1] == NatToDecimal(n / 10);
      DecimalRoundTrip(n / 10);
    }
  }

  /** Every value `%d` prints is read back exactly. */
  lemma FormatIntRoundTrip(x: int)
    ensures ParseInt(FormatInt(x)) == Some(x)
  {
    var n := if x < 0 then -x else x;
    DecimalRoundTrip(n);
    var digits := NatToDecimal(n);
    if x < 0 {
      assert ("-" + digits)[1..] == digits;
      assert ("-" + digits)[0] == '-';
    } else {
      assert digits[0] != '-';
    }
  }

  /** The string `t0 sep t1 sep ... sep tk`, as a format whose conversions are
      separated by single `sep` characters produces it. */
  function Join(ts: seq<string>, sep: char): (s: string) {
    if |ts| == 0 then []
    else if |ts| == 1 then ts[0]
    else ts[0] + [sep] + Join(ts[1..], sep)
  }

  /** The non-empty fields of `ts`, in order. */
  function NonEmpty(ts: seq<string>): (fields: seq<string>) {
    if ts == [] then []
    else (if ts[0] == [] then [] else [ts[0]]) + NonEmpty(ts[1..])
  }

  /** strtok-style split: the maximal runs of characters other than `sep`. `cur`
      is the part of the current field read so far. */
  function SplitFrom(s: string, sep: char, cur: string): (fields: seq<string>)
    decreases |s|
  {
    if s == [] then (if cur == [] then [] else [cur])
    else if s[0] == sep then (if cur == [] then [] else [cur]) + SplitFrom(s[1..], sep, [])
    else SplitFrom(s[1..], sep, cur + [s[0]])
  }

  function Split(s: string, sep: char): (fields: seq<string>) {
    SplitFrom(s, sep, [])
  }

  /** No field of a split holds the separator. */
  lemma {:induction false} SplitFromNoSep(s: string, sep: char, cur: string)
    requires sep !in cur
    ensures forall i :: 0 <= i < |SplitFrom(s, sep, cur)| ==> sep !in SplitFrom(s, sep, cur)[i]
    decreases |s|
  {
    if s != [] {
      if s[0] == sep {
        SplitFromNoSep(s[1..], sep, []);
      } else {
        SplitFromNoSep(s[1..], sep, cur + [s[0]]);
      }
    }
  }

  lemma {:induction false} JoinAppend(a: seq<string>, b: seq<string>, sep: char)
    requires |a| > 0 && |b| > 0
    ensures Join(a + b, sep) == Join(a, sep) + [sep] + Join(b, sep)
    decreases |a|
  {
    if |a| == 1 {
      assert (a + b)[1..] == b;
    } else {
      assert (a + b)[1..] == a[1..] + b;
      JoinAppend(a[1..], b, sep);
    }
  }

  /** A format whose first `%s` is the output of an earlier format of the same
      shape prints the same as one format over all the fields. */
  lemma JoinNested(a: seq<string>, b: seq<string>, sep: char)
    requires |a| > 0 && |b| > 0
    ensures Join([Join(a, sep)] + b, sep) == Join(a + b, sep)
  {
    JoinAppend([Join(a, sep)], b, sep);
    JoinAppend(a, b, sep);
  }

  lemma {:induction false} NonEmptyAppend(a: seq<string>, b: seq<string>)
    ensures NonEmpty(a + b) == NonEmpty(a) + NonEmpty(b)
    decreases |a|
  {
    if a == [] {
      assert a + b == b;
    } else {
      assert (a + b)[0] == a[0];
      assert (a + b)[1..] == a[1..] + b;
      NonEmptyAppend(a[1..], b);
    }
  }

  lemma {:induction false} SplitThroughField(t: string, rest: string, sep: char, cur: string)
    requires sep !in t
    ensures SplitFrom(t + rest, sep, cur) == SplitFrom(rest, sep, cur + t)
    decreases |t|
  {
    if t != [] {
      assert (t + rest)[0] == t[0];
      assert (t + rest)[1..] == t[1..] + rest;
      assert cur + [t[0]] + t[1..] == cur + t;
      SplitThroughField(t[1..], rest, sep, cur + [t[0]]);
    } else {
      assert t + rest == rest;
      assert cur + t == cur;
    }
  }

  lemma {:induction false} SplitJoinFrom(ts: seq<string>, sep: char, cur: string)
    requires |ts| > 0
    requires forall i :: 0 <= i < |ts| ==> sep !in ts[i]
    ensures SplitFrom(Join(ts, sep), sep, cur) == NonEmpty([cur + ts[0]] + ts[1..])
    decreases |ts|
  {
    if |ts| == 1 {
      SplitThroughField(ts[0], [], sep, cur);
      assert ts[0] + [] == ts[0];
      assert [cur + ts[0]] + ts[1..] == [cur + ts[0]];
      assert NonEmpty([cur + ts[0]]) == (if cur + ts[0] == [] then [] else [cur + ts[0]]) + NonEmpty([]);
    } else {
      var rest := Join(ts[1..], sep);
      assert Join(ts, sep) == ts[0] + ([sep] + rest);
      SplitThroughField(ts[0], [sep] + rest, sep, cur);
      assert ([sep] + rest)[1..] == rest;
      SplitJoinFrom(ts[1..], sep, []);
      assert [] + ts[1..][0] == ts[1];
      assert [ts[1]] + ts[1..][1..] == ts[1..];
      NonEmptyAppend([cur + ts[0]], ts[1..]);
      assert NonEmpty([cur + ts[0]]) == (if cur + ts[0] == [] then [] else [cur + ts[0]]) + NonEmpty([]);
    }
  }

  /** Splitting a joined list on the separator returns its non-empty fields,
      provided no field holds the separator. Empty fields are lost. */
  lemma SplitJoin(ts: seq<string>, sep: char)
    requires forall i :: 0 <= i < |ts| ==> sep !in ts[i]
    ensures Split(Join(ts, sep), sep) == NonEmpty(ts)
  {
    if |ts| > 0 {
      SplitJoinFrom(ts, sep, []);
      assert [] + ts[0] == ts[0];
      assert [ts[0]] + ts[1..] == ts;
    }
  }

  lemma {:induction false} NonEmptyOfTokens(ts: seq<string>, sep: char)
    requires forall i :: 0 <= i < |ts| ==> IsToken(ts[i], sep)
    ensures NonEmpty(ts) == ts
    decreases |ts|
  {
    if ts != [] {
      NonEmptyOfTokens(ts[1..], sep);
    }
  }

  /** Dropping empty fields shortens the list by at least one when there is one. */
  lemma {:induction false} NonEmptyShorter(ts: seq<string>, k: nat)
    requires k < |ts| && ts[k] == []
    ensures |NonEmpty(ts)| < |ts|
    decreases |ts|
  {
    NonEmptyNoLonger(ts[1..]);
    if k > 0 {
      NonEmptyShorter(ts[1..], k - 1);
    }
  }

  lemma {:induction false} NonEmptyNoLonger(ts: seq<string>)
    ensures |NonEmpty(ts)| <= |ts|
    decreases |ts|
  {
    if ts != [] {
      NonEmptyNoLonger(ts[1..]);
    }
  }

  /** With exactly one empty field, at k, dropping empty fields removes just that one. */
  lemma {:induction false} NonEmptyDropsOne(ts: seq<string>, k: nat, sep: char)
    requires k < |ts| && ts[k] == []
    requires forall i :: 0 <= i < |ts| && i != k ==> IsToken(ts[i], sep)
    ensures NonEmpty(ts) == ts[..k] + ts[k + 1..]
  {
    var before, after := ts[..k], ts[k + 1..];
    assert ts == before + ([ts[k]] + after);
    NonEmptyAppend(before, [ts[k]] + after);
    NonEmptyAppend([ts[k]], after);
    assert NonEmpty([ts[k]]) == [];
    assert forall i :: 0 <= i < |before| ==> IsToken(before[i], sep);
    assert forall i :: 0 <= i < |after| ==> after[i] == ts[k + 1 + i] && IsToken(after[i], sep);
    NonEmptyOfTokens(before, sep);
    NonEmptyOfTokens(after, sep);
  }

  /** The join/split round trip: when every field is a token (non-empty, no
      separator), splitting the joined string gives back exactly the fields. */
  lemma SplitJoinRoundTrip(ts: seq<string>, sep: char)
    requires forall i :: 0 <= i < |ts| ==> IsToken(ts[i], sep)
    ensures Split(Join(ts, sep), sep) == ts
  {
    SplitJoin(ts, sep);
    NonEmptyOfTokens(ts, sep);
  }
}
